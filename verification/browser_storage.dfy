/** The browser's key/value store, as far as the saves need it. */
module BrowserStorage {

  /** How one `setItem` call ends for a given payload: it stores it, throws
      a `QuotaExceededError`, or throws anything else. Which of the three
      happens is decided by the browser, so the model takes it as an
      oracle on the payload. */
  datatype WriteOutcome = Written | QuotaExceeded | WriteFailed
}
