/** HTTP responses as the middlewares and the completion client see them. */
module Http {
  import opened Php

  datatype Response = Response(status: int, body: Value)

  /** `isSuccessful()` / `successful()`: a 2xx status. */
  predicate IsSuccessful(status: int) {
    200 <= status < 300
  }
}
