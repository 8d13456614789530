// The provider contract the extraction service is written against: what a
// call to `extract($filePath, $documentType, $metadata)` gives back.
module ProviderContract {
  import opened Php

  /** The array `extract()` returns: a status string, an optional `data`
      entry (the provider's parsed response) and an optional `message`. */
  datatype ProviderResult = ProviderResult(status: string, data: Option<Json>, message: Option<string>)

  /** A call to `extract()` either returns a result or throws with a message. */
  datatype ProviderOutcome = Returned(result: ProviderResult) | Threw(message: string)
}
