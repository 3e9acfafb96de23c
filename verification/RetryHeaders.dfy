/** Message headers: how often a webhook was tried, and why it failed. */
module RetryHeaders {
  import opened Basics

  /** The value found under `x-retry-count`. `Text` holds the result of
      converting a string to an integer, `Unconvertible` any value whose
      conversion raises. */
  datatype CountHeader = NoCount | Number(n: int) | Text(parsed: Option<int>) | Unconvertible

  /** What the `x-death` header offers: nothing, something that is not a list
      starting with an entry with an integer count, or that count. */
  datatype XDeath = NoDeath | Unusable | FirstDeath(count: int)

  datatype Headers = Headers(
    count: CountHeader,
    retryReason: Option<string>,
    dlqReason: Option<string>,
    xDeath: XDeath)

  const NO_HEADERS := Headers(NoCount, None, None, NoDeath)

  function GetRetryCount(headers: Option<Headers>): int {
    match headers
    case None => 0
    case Some(h) =>
      match h.count
      case Number(n) => n
      case Text(parsed) => if parsed.Some? then parsed.value else 0
      case Unconvertible => 0
      case NoCount => if h.xDeath.FirstDeath? then h.xDeath.count else 0
  }

  function BuildRetryHeaders(nextCount: int, reason: string): Headers {
    Headers(Number(nextCount), Some(reason), None, NoDeath)
  }

  function BuildDlqHeaders(retryCount: int, reason: string): Headers {
    Headers(Number(retryCount), None, Some(reason), NoDeath)
  }

  /** What the broker adds when it dead-letters a message. */
  function DeadLettered(h: Headers): Headers {
    h.(xDeath := FirstDeath(1))
  }

  /** Headers a message of the pipeline can carry with retry count `n`: the
      explicit count, or no count and no dead-lettering. */
  ghost predicate CountIs(h: Headers, n: int) {
    h.count == Number(n) || (n == 0 && h.count == NoCount && h.xDeath == NoDeath)
  }

  /** The count read is the count written, for every integer and whatever the
      broker has recorded under `x-death` in between. */
  lemma ReadsBackWhatWasWritten(n: int, reason: string, death: XDeath)
    ensures GetRetryCount(Some(BuildRetryHeaders(n, reason).(xDeath := death))) == n
    ensures GetRetryCount(Some(BuildDlqHeaders(n, reason).(xDeath := death))) == n
  {
  }

  /** What is read from each form the header can take: a number, text that is a
      number, anything else, or no header and the broker's record. */
  lemma EveryFormIsRead(h: Headers, n: int)
    ensures GetRetryCount(None) == 0
    ensures GetRetryCount(Some(h.(count := Number(n)))) == n
    ensures GetRetryCount(Some(h.(count := Text(Some(n))))) == n
    ensures GetRetryCount(Some(h.(count := Text(None)))) == 0
    ensures GetRetryCount(Some(h.(count := Unconvertible))) == 0
    ensures GetRetryCount(Some(h.(count := NoCount, xDeath := FirstDeath(n)))) == n
    ensures GetRetryCount(Some(h.(count := NoCount, xDeath := Unusable))) == 0
    ensures GetRetryCount(Some(h.(count := NoCount, xDeath := NoDeath))) == 0
  {
  }

  /** The `x-death` fallback decides the count exactly when no explicit header
      is present and the broker has recorded a usable entry. */
  lemma FallbackDecides(h: Headers)
    ensures (exists d :: GetRetryCount(Some(h.(xDeath := d))) != GetRetryCount(Some(h.(xDeath := NoDeath))))
            <==> h.count == NoCount
  {
    if h.count == NoCount {
      assert GetRetryCount(Some(h.(xDeath := FirstDeath(1)))) == 1;
    }
  }
}
