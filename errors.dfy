/**
 * The four classified SMTP errors of errors.go. Each carries a reply code
 * (section 4.2 of RFC 5321), an enhanced status code class.subject.detail
 * (RFC 3463) and a message for the remote party.
 */
module SmtpErrors {

  datatype EnhancedCode = EnhancedCode(statusClass: nat, subject: nat, detail: nat)

  datatype ClassifiedError =
    | RejectedByPolicy
    | InternalServer
    | TryAgainLater
    | InvalidAction
  {
    /** A permanent failure (class 5) as opposed to a transient one (class 4),
        as the source's comments describe each error. */
    predicate Permanent() {
      this == RejectedByPolicy || this == InvalidAction
    }

    function Enhanced(): (e: EnhancedCode)
      ensures e.statusClass == (if Permanent() then 5 else 4)
    {
      match this
      case RejectedByPolicy => EnhancedCode(5, 7, 1)
      case InternalServer => EnhancedCode(4, 3, 0)
      case TryAgainLater => EnhancedCode(4, 3, 2)
      case InvalidAction => EnhancedCode(5, 3, 5)
    }

    /** The reply code; its first digit is the class of the enhanced code. */
    function Code(): (c: nat)
      ensures 400 <= c < 600
      ensures c / 100 == Enhanced().statusClass
      ensures Permanent() <==> c / 100 == 5
    {
      match this
      case RejectedByPolicy => 554
      case InternalServer => 451
      case TryAgainLater => 421
      case InvalidAction => 554
    }

    function Message(): string {
      match this
      case RejectedByPolicy => "Message rejected due to policy"
      case InternalServer => "Internal server error, please try again later"
      case TryAgainLater => "Service temporarily unavailable, please try again later"
      case InvalidAction => "Transaction failed due to an invalid internal state"
    }
  }

  /** The policy refusal is 554 with the security-policy code 5.7.1 of
      section 3.8 of RFC 3463, and no two errors share an enhanced code. */
  lemma CodesAgreeWithEnhancedCodes(e: ClassifiedError, f: ClassifiedError)
    ensures e.Code() / 100 == e.Enhanced().statusClass
    ensures RejectedByPolicy.Code() == 554 && RejectedByPolicy.Enhanced() == EnhancedCode(5, 7, 1)
    ensures e != f ==> e.Enhanced() != f.Enhanced()
  {
  }
}
