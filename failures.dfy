/**
 * The three exception classes of the core are (state tag, reason) pairs; a
 * job's failure hook receives either one of them or some other error. Both
 * are values here.
 */
module Failures {

  /**
   * A classified failure: the state the failure hook persists and the
   * human-readable reason. The exception's message is the reason itself.
   */
  datatype Failure<T> = Failure(tag: T, reason: string) {
    function Message(): string {
      reason
    }
  }

  /** What a job's failure hook receives. */
  datatype JobError<T> = Classified(failure: Failure<T>) | Unclassified(message: string)

  /** Class names of this package and of the gateway client that reasons quote. */
  const TransactionClass := "GloCurrency\\Tingg\\Models\\Transaction"
  const MobileMoneyProviderClass := "GloCurrency\\Tingg\\Models\\MobileMoneyProvider"
  const TransactionStateCodeEnumClass := "GloCurrency\\Tingg\\Enums\\TransactionStateCodeEnum"
  const ClientClass := "BrokeYourBike\\Tingg\\Client"
  const AuthCodeEnumClass := "BrokeYourBike\\Tingg\\Enums\\AuthCodeEnum"
  const PaymentStatusCodeEnumClass := "BrokeYourBike\\Tingg\\Enums\\PaymentStatusCodeEnum"

  /*
   * Reasons shared by the send and the fetch exception classes, which word
   * their common failures identically.
   */

  /** A transaction's state code is not the one the job starts from. */
  function StateNotAllowedReason(stateValue: string): string {
    TransactionClass + " state_code `" + stateValue + "` not allowed"
  }

  /** The gateway client threw `message`. */
  function ApiRequestReason(message: string): string {
    "Exception during " + ClientClass + " request with message: `" + message + "`"
  }

  /** `code` is not a value of the gateway enumeration `enumClass`. */
  function UnexpectedCodeReason(enumClass: string, code: string): string {
    "Unexpected " + enumClass + ": `" + code + "`"
  }

  /** The reply carried no payment result; `body` is the raw reply. */
  function NoErrorCodeReason(body: string): string {
    "No " + PaymentStatusCodeEnumClass + " in json `" + body + "`"
  }

  /** An unexpected-code reason quotes its code exactly: equal reasons mean equal codes. */
  lemma UnexpectedCodeQuotesExactly(enumClass: string, a: string, b: string)
    ensures UnexpectedCodeReason(enumClass, a) == UnexpectedCodeReason(enumClass, b) <==> a == b
  {
    var prefix := "Unexpected " + enumClass + ": `";
    var ra, rb := UnexpectedCodeReason(enumClass, a), UnexpectedCodeReason(enumClass, b);
    assert ra == prefix + a + "`" && rb == prefix + b + "`";
    if ra == rb {
      assert |a| == |b|;
      assert a == ra[|prefix|..|prefix| + |a|];
      assert b == rb[|prefix|..|prefix| + |b|];
    }
  }

  /** An unknown auth code and an unknown payment status code are never reported alike. */
  lemma UnexpectedCodeNamesItsEnum(a: string, b: string)
    ensures UnexpectedCodeReason(AuthCodeEnumClass, a) != UnexpectedCodeReason(PaymentStatusCodeEnumClass, b)
  {
    var ra, rb := UnexpectedCodeReason(AuthCodeEnumClass, a), UnexpectedCodeReason(PaymentStatusCodeEnumClass, b);
    assert ra[|"Unexpected BrokeYourBike\\Tingg\\Enums\\"|] == 'A';
    assert rb[|"Unexpected BrokeYourBike\\Tingg\\Enums\\"|] == 'P';
  }
}
