/** The argument list of the user lookup by email: the email is lower-cased
    before it is bound, so that the lookup does not depend on the case in which
    the user typed their address. */
module UserLookup {
  import opened JsValues

  predicate IsUpper(c: char) {
    'A' <= c <= 'Z'
  }

  /** c and d are the same character, or the same letter in upper and lower case. */
  predicate SameIgnoringCase(c: char, d: char) {
    c == d
    || (IsUpper(c) && d as int == c as int + 32)
    || (IsUpper(d) && c as int == d as int + 32)
  }

  predicate EqualIgnoringCase(a: string, b: string) {
    |a| == |b| && forall i :: 0 <= i < |a| ==> SameIgnoringCase(a[i], b[i])
  }

  predicate NoUpper(s: string) {
    forall i :: 0 <= i < |s| ==> !IsUpper(s[i])
  }

  function LowerChar(c: char): (d: char)
    ensures !IsUpper(d) && SameIgnoringCase(c, d)
  {
    if IsUpper(c) then (c as int + 32) as char else c
  }

  /** `toLowerCase` on the ASCII letters: the result has no upper-case letter
      and differs from the input in case only. */
  function ToLower(s: string): (r: string)
    ensures NoUpper(r) && EqualIgnoringCase(s, r)
  {
    if s == [] then [] else [LowerChar(s[0])] + ToLower(s[1..])
  }

  lemma {:induction false} ToLowerAt(s: string, i: nat)
    requires i < |s|
    ensures ToLower(s)[i] == LowerChar(s[i])
  {
    if i > 0 {
      ToLowerAt(s[1..], i - 1);
    }
  }

  lemma LowerCharEqualIff(c: char, d: char)
    ensures LowerChar(c) == LowerChar(d) <==> SameIgnoringCase(c, d)
  {
  }

  /** Two emails lead to the same lookup exactly when they differ in case only. */
  lemma LowerEqualIffEqualIgnoringCase(a: string, b: string)
    ensures ToLower(a) == ToLower(b) <==> EqualIgnoringCase(a, b)
  {
    if |a| == |b| {
      var la, lb := ToLower(a), ToLower(b);
      forall i | 0 <= i < |a|
        ensures la[i] == lb[i] <==> SameIgnoringCase(a[i], b[i])
      {
        ToLowerAt(a, i);
        ToLowerAt(b, i);
        LowerCharEqualIff(a[i], b[i]);
      }
      if EqualIgnoringCase(a, b) {
        assert |la| == |lb|;
        assert forall i :: 0 <= i < |la| ==> la[i] == lb[i];
      }
    }
  }

  /** Lower-casing twice changes nothing more. */
  lemma ToLowerIdempotent(s: string)
    ensures ToLower(ToLower(s)) == ToLower(s)
  {
    var r := ToLower(s);
    forall i | 0 <= i < |r|
      ensures ToLower(r)[i] == r[i]
    {
      ToLowerAt(r, i);
    }
  }

  /** The parameters of the lookup, `[email?.toLowerCase()]`: the email in lower
      case; a missing or `null` email gives `undefined` rather than an error. */
  function UserWithEmailParams(email: Js<string>): (ps: seq<Param>)
    ensures |ps| == 1
    ensures email.Defined? ==> ps[0].Str? && NoUpper(ps[0].s) && EqualIgnoringCase(email.v, ps[0].s)
    ensures !email.Defined? ==> ps[0] == UndefinedValue
  {
    match email
    case Defined(s) => [Str(ToLower(s))]
    case _ => [UndefinedValue]
  }

  /** Emails that differ in case only bind the same parameter. */
  lemma LookupIgnoresCase(a: string, b: string)
    requires EqualIgnoringCase(a, b)
    ensures UserWithEmailParams(Defined(a)) == UserWithEmailParams(Defined(b))
  {
    LowerEqualIffEqualIgnoringCase(a, b);
  }

  lemma MixedCaseEmailExample()
    ensures UserWithEmailParams(Defined("Me@X.io")) == [Str("me@x.io")]
  {
    var s, t := "Me@X.io", "me@x.io";
    var r := ToLower(s);
    assert LowerChar('M') == 'm' && LowerChar('X') == 'x';
    forall i | 0 <= i < |s|
      ensures r[i] == t[i]
    {
      ToLowerAt(s, i);
    }
    assert r == t;
  }
}
