/**
 Classification of blockchain errors: what `handleBlockchainError` makes of an error, and why
 the two ways in which `isRetryable` can decide never disagree about what it made.
 */
module ErrorHandler {

  /** `error.code`; `NoCode` where it is missing, `OtherCode` for every code without a case of its own. */
  datatype ErrorCode =
    | NoCode
    | CALL_EXCEPTION
    | UNPREDICTABLE_GAS_LIMIT
    | REPLACEMENT_UNDERPRICED
    | TRANSACTION_REPLACED_CODE
    | INSUFFICIENT_FUNDS_CODE
    | NONCE_EXPIRED_CODE
    | INVALID_ARGUMENT_CODE
    | MISSING_ARGUMENT_CODE
    | UNSUPPORTED_OPERATION_CODE
    | NETWORK_ERROR_CODE
    | SERVER_ERROR
    | CONNECTION_ERROR
    | TIMEOUT_CODE
    | OtherCode

  datatype ErrorType =
    | TRANSACTION_REVERTED
    | TRANSACTION_REPLACED
    | TRANSACTION_UNDERPRICED
    | TRANSACTION_OUT_OF_GAS
    | NONCE_EXPIRED
    | NONCE_TOO_LOW
    | NONCE_TOO_HIGH
    | NETWORK_ERROR
    | TIMEOUT
    | RATE_LIMIT
    | UNPREDICTABLE_GAS
    | CONTRACT_NOT_DEPLOYED
    | INVALID_ARGUMENT
    | MISSING_ARGUMENT
    | INSUFFICIENT_FUNDS
    | REJECTED_BY_USER
    | CHAIN_DISCONNECTED
    | UNSUPPORTED_OPERATION
    | UNKNOWN_ERROR

  /** An error as thrown; an empty message or reason is a missing one. */
  datatype RawError = RawError(code: ErrorCode, message: string, reason: string)

  datatype Flag = Unset | Set(value: bool)

  /** The parts of the structured error that decide about a retry; `dataReason` is `data.reason`. */
  datatype BlockchainError = BlockchainError(kind: ErrorType, dataReason: string, retryable: Flag)

  predicate OccursAt(text: string, part: string, i: nat) {
    i + |part| <= |text| && text[i..i + |part|] == part
  }

  predicate Includes(text: string, part: string) {
    exists i :: 0 <= i <= |text| && OccursAt(text, part, i)
  }

  /** The verdict on a message whose code has no case of its own; the first phrase that fits decides. */
  function ByMessage(message: string): (ErrorType, bool) {
    if Includes(message, "gas required exceeds allowance") || Includes(message, "out of gas")
    then (TRANSACTION_OUT_OF_GAS, true)
    else if Includes(message, "execution reverted") then (TRANSACTION_REVERTED, false)
    else if Includes(message, "rate limit") then (RATE_LIMIT, true)
    else if Includes(message, "nonce too low") then (NONCE_TOO_LOW, true)
    else if Includes(message, "nonce too high") then (NONCE_TOO_HIGH, true)
    else if Includes(message, "user rejected") || Includes(message, "user denied") then (REJECTED_BY_USER, false)
    else if Includes(message, "contract not deployed") then (CONTRACT_NOT_DEPLOYED, false)
    else if Includes(message, "disconnected") || Includes(message, "not connected") then (CHAIN_DISCONNECTED, true)
    else (UNKNOWN_ERROR, false)
  }

  function Classify(e: RawError): BlockchainError {
    match e.code
    case NoCode => BlockchainError(UNKNOWN_ERROR, "", Set(false))
    case CALL_EXCEPTION => BlockchainError(TRANSACTION_REVERTED, "", Set(false))
    case UNPREDICTABLE_GAS_LIMIT => BlockchainError(UNPREDICTABLE_GAS, "", Set(false))
    case REPLACEMENT_UNDERPRICED => BlockchainError(TRANSACTION_UNDERPRICED, "", Set(true))
    case TRANSACTION_REPLACED_CODE => BlockchainError(TRANSACTION_REPLACED, e.reason, Set(e.reason == "cancelled"))
    case INSUFFICIENT_FUNDS_CODE => BlockchainError(INSUFFICIENT_FUNDS, "", Set(false))
    case NONCE_EXPIRED_CODE => BlockchainError(NONCE_EXPIRED, "", Set(true))
    case INVALID_ARGUMENT_CODE => BlockchainError(INVALID_ARGUMENT, "", Set(false))
    case MISSING_ARGUMENT_CODE => BlockchainError(MISSING_ARGUMENT, "", Set(false))
    case UNSUPPORTED_OPERATION_CODE => BlockchainError(UNSUPPORTED_OPERATION, "", Set(false))
    case NETWORK_ERROR_CODE | SERVER_ERROR | CONNECTION_ERROR => BlockchainError(NETWORK_ERROR, "", Set(true))
    case TIMEOUT_CODE => BlockchainError(TIMEOUT, "", Set(true))
    case OtherCode =>
      var (kind, retryable) := ByMessage(e.message);
      BlockchainError(kind, "", Set(retryable))
  }

  /** What `isRetryable` says of an error type when the flag is not set. */
  predicate RetryableType(kind: ErrorType, dataReason: string) {
    match kind
    case NETWORK_ERROR | TIMEOUT | RATE_LIMIT | TRANSACTION_UNDERPRICED | NONCE_EXPIRED | NONCE_TOO_LOW
       | NONCE_TOO_HIGH | TRANSACTION_OUT_OF_GAS | CHAIN_DISCONNECTED => true
    case TRANSACTION_REPLACED => dataReason == "cancelled"
    case _ => false
  }

  predicate IsRetryable(e: BlockchainError) {
    match e.retryable
    case Set(value) => value
    case Unset => RetryableType(e.kind, e.dataReason)
  }

  // ------------------------------------------------------ the table, by itself

  /** The kind of every code that has a case of its own, and of a missing one. */
  function KindOfCode(code: ErrorCode): ErrorType
    requires code != OtherCode
  {
    match code
    case NoCode => UNKNOWN_ERROR
    case CALL_EXCEPTION => TRANSACTION_REVERTED
    case UNPREDICTABLE_GAS_LIMIT => UNPREDICTABLE_GAS
    case REPLACEMENT_UNDERPRICED => TRANSACTION_UNDERPRICED
    case TRANSACTION_REPLACED_CODE => TRANSACTION_REPLACED
    case INSUFFICIENT_FUNDS_CODE => INSUFFICIENT_FUNDS
    case NONCE_EXPIRED_CODE => NONCE_EXPIRED
    case INVALID_ARGUMENT_CODE => INVALID_ARGUMENT
    case MISSING_ARGUMENT_CODE => MISSING_ARGUMENT
    case UNSUPPORTED_OPERATION_CODE => UNSUPPORTED_OPERATION
    case NETWORK_ERROR_CODE => NETWORK_ERROR
    case SERVER_ERROR => NETWORK_ERROR
    case CONNECTION_ERROR => NETWORK_ERROR
    case TIMEOUT_CODE => TIMEOUT
  }

  const PHRASE_COUNT: nat := 11

  /** The phrases that decide about the other codes, in the order in which they are looked for. */
  function Phrase(i: nat): (string, ErrorType)
    requires i < PHRASE_COUNT
  {
    match i
    case 0 => ("gas required exceeds allowance", TRANSACTION_OUT_OF_GAS)
    case 1 => ("out of gas", TRANSACTION_OUT_OF_GAS)
    case 2 => ("execution reverted", TRANSACTION_REVERTED)
    case 3 => ("rate limit", RATE_LIMIT)
    case 4 => ("nonce too low", NONCE_TOO_LOW)
    case 5 => ("nonce too high", NONCE_TOO_HIGH)
    case 6 => ("user rejected", REJECTED_BY_USER)
    case 7 => ("user denied", REJECTED_BY_USER)
    case 8 => ("contract not deployed", CONTRACT_NOT_DEPLOYED)
    case 9 => ("disconnected", CHAIN_DISCONNECTED)
    case _ => ("not connected", CHAIN_DISCONNECTED)
  }

  predicate RetriedKind(kind: ErrorType) {
    || kind == TRANSACTION_OUT_OF_GAS || kind == RATE_LIMIT || kind == NONCE_TOO_LOW || kind == NONCE_TOO_HIGH
    || kind == CHAIN_DISCONNECTED
  }

  /** Phrase i is the first one that the message contains. */
  predicate FitsFirst(message: string, i: nat) {
    && i < PHRASE_COUNT && Includes(message, Phrase(i).0)
    && forall j: nat :: j < i ==> !Includes(message, Phrase(j).0)
  }

  /** The errors that a caller should try again after. */
  ghost predicate WorthRetrying(e: RawError) {
    || e.code == REPLACEMENT_UNDERPRICED || e.code == NONCE_EXPIRED_CODE || e.code == TIMEOUT_CODE
    || e.code == NETWORK_ERROR_CODE || e.code == SERVER_ERROR || e.code == CONNECTION_ERROR
    || (e.code == TRANSACTION_REPLACED_CODE && e.reason == "cancelled")
    || (e.code == OtherCode && exists i: nat :: FitsFirst(e.message, i) && RetriedKind(Phrase(i).1))
  }

  lemma IncludesIff(text: string, part: string)
    ensures Includes(text, part) <==> exists before, after :: text == before + part + after
  {
    if Includes(text, part) {
      var i :| 0 <= i <= |text| && OccursAt(text, part, i);
      assert text == text[..i] + part + text[i + |part|..];
    }
    if before, after :| text == before + part + after {
      assert OccursAt(text, part, |before|);
    }
  }

  lemma PhraseDecides(message: string, i: nat)
    requires FitsFirst(message, i)
    ensures ByMessage(message).0 == Phrase(i).1
  {
    assert forall j: nat :: j < i ==> !Includes(message, Phrase(j).0);
    assert i > 0 ==> !Includes(message, Phrase(0).0);
    assert i > 1 ==> !Includes(message, Phrase(1).0);
    assert i > 2 ==> !Includes(message, Phrase(2).0);
    assert i > 3 ==> !Includes(message, Phrase(3).0);
    assert i > 4 ==> !Includes(message, Phrase(4).0);
    assert i > 5 ==> !Includes(message, Phrase(5).0);
    assert i > 6 ==> !Includes(message, Phrase(6).0);
    assert i > 7 ==> !Includes(message, Phrase(7).0);
    assert i > 8 ==> !Includes(message, Phrase(8).0);
    assert i > 9 ==> !Includes(message, Phrase(9).0);
  }

  lemma {:induction false} SomePhraseFitsFirst(message: string, n: nat)
    requires n < PHRASE_COUNT && Includes(message, Phrase(n).0)
    ensures exists i: nat :: FitsFirst(message, i)
  {
    if j: nat :| j < n && Includes(message, Phrase(j).0) {
      SomePhraseFitsFirst(message, j);
    } else {
      assert FitsFirst(message, n);
    }
  }

  lemma NoPhraseDecides(message: string)
    requires forall i: nat :: !FitsFirst(message, i)
    ensures ByMessage(message).0 == UNKNOWN_ERROR
  {
    forall n: nat | n < PHRASE_COUNT ensures !Includes(message, Phrase(n).0) {
      if Includes(message, Phrase(n).0) { SomePhraseFitsFirst(message, n); }
    }
    assert !Includes(message, Phrase(0).0) && !Includes(message, Phrase(1).0) && !Includes(message, Phrase(2).0);
    assert !Includes(message, Phrase(3).0) && !Includes(message, Phrase(4).0) && !Includes(message, Phrase(5).0);
    assert !Includes(message, Phrase(6).0) && !Includes(message, Phrase(7).0) && !Includes(message, Phrase(8).0);
    assert !Includes(message, Phrase(9).0) && !Includes(message, Phrase(10).0);
  }

  /** An error's kind is that of its code, or of the first phrase its message contains. */
  lemma KindIsTabled(e: RawError)
    ensures e.code != OtherCode ==> Classify(e).kind == KindOfCode(e.code)
    ensures e.code == OtherCode ==> forall i: nat :: FitsFirst(e.message, i) ==> Classify(e).kind == Phrase(i).1
    ensures e.code == OtherCode && (forall i: nat :: !FitsFirst(e.message, i)) ==> Classify(e).kind == UNKNOWN_ERROR
    ensures Classify(e).dataReason == if e.code == TRANSACTION_REPLACED_CODE then e.reason else ""
  {
    if e.code == OtherCode {
      forall i: nat | FitsFirst(e.message, i) ensures Classify(e).kind == Phrase(i).1 { PhraseDecides(e.message, i); }
      if forall i: nat :: !FitsFirst(e.message, i) { NoPhraseDecides(e.message); }
    }
  }

  /** Exactly the errors that are worth it are retried. */
  lemma RetryableIff(e: RawError)
    ensures IsRetryable(Classify(e)) <==> WorthRetrying(e)
  {
    KindIsTabled(e);
    FlagAgreesWithType(e);
    if e.code == OtherCode && IsRetryable(Classify(e)) {
      var i: nat :| FitsFirst(e.message, i);
      assert Classify(e).kind == Phrase(i).1;
    }
  }

  /** The flag, where it is set, decides alone. */
  lemma FlagDecides(kind: ErrorType, dataReason: string, value: bool)
    ensures IsRetryable(BlockchainError(kind, dataReason, Set(value))) == value
  {
  }

  /** Fills the structured error field by field, as the source does. */
  method HandleBlockchainError(e: RawError) returns (r: BlockchainError)
    ensures r == Classify(e)
    ensures e.code != OtherCode ==> r.kind == KindOfCode(e.code)
    ensures e.code == OtherCode ==> forall i: nat :: FitsFirst(e.message, i) ==> r.kind == Phrase(i).1
    ensures e.code == OtherCode && (forall i: nat :: !FitsFirst(e.message, i)) ==> r.kind == UNKNOWN_ERROR
    ensures r.dataReason == if e.code == TRANSACTION_REPLACED_CODE then e.reason else ""
    ensures IsRetryable(r) <==> WorthRetrying(e)
    ensures r.retryable.Set?
    ensures IsRetryable(r) == IsRetryable(r.(retryable := Unset))
  {
    FlagAgreesWithType(e);
    KindIsTabled(e);
    RetryableIff(e);
    r := BlockchainError(UNKNOWN_ERROR, "", Set(false));
    if e.code == NoCode { return; }
    match e.code {
      case CALL_EXCEPTION => r := r.(kind := TRANSACTION_REVERTED);
      case UNPREDICTABLE_GAS_LIMIT => r := r.(kind := UNPREDICTABLE_GAS);
      case REPLACEMENT_UNDERPRICED => r := r.(kind := TRANSACTION_UNDERPRICED); r := r.(retryable := Set(true));
      case TRANSACTION_REPLACED_CODE =>
        r := r.(kind := TRANSACTION_REPLACED);
        r := r.(dataReason := e.reason);
        r := r.(retryable := Set(e.reason == "cancelled"));
      case INSUFFICIENT_FUNDS_CODE => r := r.(kind := INSUFFICIENT_FUNDS);
      case NONCE_EXPIRED_CODE => r := r.(kind := NONCE_EXPIRED); r := r.(retryable := Set(true));
      case INVALID_ARGUMENT_CODE => r := r.(kind := INVALID_ARGUMENT);
      case MISSING_ARGUMENT_CODE => r := r.(kind := MISSING_ARGUMENT);
      case UNSUPPORTED_OPERATION_CODE => r := r.(kind := UNSUPPORTED_OPERATION);
      case NETWORK_ERROR_CODE => r := r.(kind := NETWORK_ERROR); r := r.(retryable := Set(true));
      case SERVER_ERROR => r := r.(kind := NETWORK_ERROR); r := r.(retryable := Set(true));
      case CONNECTION_ERROR => r := r.(kind := NETWORK_ERROR); r := r.(retryable := Set(true));
      case TIMEOUT_CODE => r := r.(kind := TIMEOUT); r := r.(retryable := Set(true));
      case _ =>
        var (kind, retryable) := ByMessage(e.message);
        r := r.(kind := kind);
        r := r.(retryable := Set(retryable));
    }
  }

  /** The flag set from the code or the message always equals the verdict on the type, so the second half of
      `isRetryable` could replace the first for every error the handler returns. */
  lemma FlagAgreesWithType(e: RawError)
    ensures Classify(e).retryable == Set(RetryableType(Classify(e).kind, Classify(e).dataReason))
  {
    if e.code == OtherCode {
      MessageAgreesWithType(e.message);
    }
  }

  lemma MessageAgreesWithType(message: string)
    ensures ByMessage(message).1 == RetryableType(ByMessage(message).0, "")
  {
  }
}
