/**
 * Utils\Logger. Logging never changes a result, so every logging call of
 * the SDK is left out; the class is kept because one instance is shared by
 * the transport and both facades.
 */
module Logging {

  class Logger {
    const debug: bool

    constructor (debug: bool)
      ensures this.debug == debug
    {
      this.debug := debug;
    }
  }
}
