/** The kinds of verification link, and the path segment each contributes to a link's URL. */
module VerificationTypes {
  import opened JavaLang

  datatype VerificationType = Account | Password {
    /** The name stored in the enum constant. */
    function Name(): string {
      match this
      case Account => "ACCOUNT"
      case Password => "PASSWORD"
    }

    /** getType: the stored name in lower case. */
    function GetType(): (r: string)
      ensures r == ToLower(Name())
      ensures this == Account ==> r == "account"
      ensures this == Password ==> r == "password"
      ensures forall i :: 0 <= i < |r| ==> IsAsciiLower(r[i])
    {
      var r := ToLower(Name());
      assert this == Account ==> r == "account" by {
        if this == Account { assert r[0] == 'a' && r[1] == 'c' && r[2] == 'c' && r[3] == 'o' && r[4] == 'u' && r[5] == 'n' && r[6] == 't'; }
      }
      assert this == Password ==> r == "password" by {
        if this == Password { assert r[0] == 'p' && r[1] == 'a' && r[2] == 's' && r[3] == 's' && r[4] == 'w' && r[5] == 'o' && r[6] == 'r' && r[7] == 'd'; }
      }
      r
    }
  }

  /** The two kinds have different path segments, which already differ in their first letter. */
  lemma GetTypeDistinguishesKinds(a: VerificationType, b: VerificationType)
    ensures a.GetType() == b.GetType() <==> a == b
    ensures a != b ==> a.GetType()[0] != b.GetType()[0]
  {
  }
}
