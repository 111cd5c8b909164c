/** Who may manage the catalogue (`auth.EmailWhitelist`): a fixed set of three addresses,
    matched after trimming and lower-casing. */
module EmailWhitelist {
  import opened Common
  import opened JavaString

  const ALLOWED_EMAILS: set<string> := {
    "julia.santosspinheiro@gmail.com",
    "giovannahgsantos@gmail.com",
    "admin@gmail.com"
  }

  /** The key an email is looked up under: `email.trim().toLowerCase()`. The key is as long as
      the trimmed email, holds no upper-case ASCII letter and has no surrounding blanks. */
  function Normalize(email: string): (key: string)
    ensures |key| == |Trim(email)|
    ensures forall i :: 0 <= i < |key| ==> !('A' <= key[i] <= 'Z')
    ensures key != [] ==> !Trimmable(key[0]) && !Trimmable(key[|key| - 1])
  {
    ToLower(Trim(email))
  }

  /** `isAllowed(email)`: a null or blank email is never allowed. */
  predicate IsAllowed(email: Option<string>)
    ensures IsAllowed(email) ==> email.Some? && Trim(email.value) != []
  {
    email.Some? && Normalize(email.value) in ALLOWED_EMAILS
  }

  /** A string with no upper-case ASCII letter and no surrounding blanks is its own key. */
  lemma NormalizeOfNormal(s: string)
    requires forall i :: 0 <= i < |s| ==> !('A' <= s[i] <= 'Z')
    requires s != [] ==> !Trimmable(s[0]) && !Trimmable(s[|s| - 1])
    ensures Normalize(s) == s
  {
    TrimOfTrimmed(s);
  }

  // One helper per listed address, so that each proof sees a single literal.

  lemma AdminAllowed()
    ensures IsAllowed(Some("admin@gmail.com"))
  {
    NormalizeOfNormal("admin@gmail.com");
  }

  lemma GiovannahAllowed()
    ensures IsAllowed(Some("giovannahgsantos@gmail.com"))
  {
    NormalizeOfNormal("giovannahgsantos@gmail.com");
  }

  lemma JuliaAllowed()
    ensures IsAllowed(Some("julia.santosspinheiro@gmail.com"))
  {
    NormalizeOfNormal("julia.santosspinheiro@gmail.com");
  }

  lemma ThreeAddresses()
    ensures |ALLOWED_EMAILS| == 3
  {
    var a := "julia.santosspinheiro@gmail.com";
    var b := "giovannahgsantos@gmail.com";
    var c := "admin@gmail.com";
    assert |a| == 31 && |b| == 26 && |c| == 15;
  }

  /** The set holds exactly the three listed addresses, each one allowed as written. */
  lemma ExactlyThree()
    ensures |ALLOWED_EMAILS| == 3
    ensures IsAllowed(Some("julia.santosspinheiro@gmail.com"))
    ensures IsAllowed(Some("giovannahgsantos@gmail.com"))
    ensures IsAllowed(Some("admin@gmail.com"))
    ensures !IsAllowed(None)
  {
    ThreeAddresses();
    JuliaAllowed();
    GiovannahAllowed();
    AdminAllowed();
  }

  /** Lower-casing never turns a kept char into a trimmed one, or back. */
  lemma LowerKeepsTrimmable(c: char)
    ensures Trimmable(LowerChar(c)) == Trimmable(c)
  {
  }

  lemma {:induction false} TrimLeadingLower(s: string)
    ensures TrimLeading(ToLower(s)) == ToLower(TrimLeading(s))
    decreases |s|
  {
    if s != [] {
      LowerKeepsTrimmable(s[0]);
      assert ToLower(s)[1..] == ToLower(s[1..]);
      TrimLeadingLower(s[1..]);
    }
  }

  lemma {:induction false} TrimTrailingLower(s: string)
    ensures TrimTrailing(ToLower(s)) == ToLower(TrimTrailing(s))
    decreases |s|
  {
    if s != [] {
      LowerKeepsTrimmable(s[|s| - 1]);
      assert ToLower(s)[..|s| - 1] == ToLower(s[..|s| - 1]);
      TrimTrailingLower(s[..|s| - 1]);
    }
  }

  /** Trimming and lower-casing commute. */
  lemma TrimLower(s: string)
    ensures Trim(ToLower(s)) == ToLower(Trim(s))
  {
    TrimLeadingLower(s);
    TrimTrailingLower(TrimLeading(s));
  }

  /** Two emails that differ only in the case of their letters are both allowed or both refused. */
  lemma CaseDoesNotMatter(a: string, b: string)
    requires ToLower(a) == ToLower(b)
    ensures IsAllowed(Some(a)) == IsAllowed(Some(b))
  {
    TrimLower(a);
    TrimLower(b);
    LowerIdempotent(Trim(a));
    LowerIdempotent(Trim(b));
  }

  lemma LowerIdempotent(s: string)
    ensures ToLower(ToLower(s)) == ToLower(s)
  {
  }

  /** Spaces, tabs or line breaks around an email do not change whether it is allowed. */
  lemma PaddingDoesNotMatter(w1: string, email: string, w2: string)
    requires AllTrimmable(w1) && AllTrimmable(w2)
    ensures IsAllowed(Some(w1 + email + w2)) == IsAllowed(Some(email))
  {
    TrimPadded(w1, email, w2);
  }

  /** An allowed email normalises to one of the three addresses, and to nothing else. */
  lemma AllowedMeansListed(email: string)
    ensures IsAllowed(Some(email)) <==>
      Normalize(email) == "julia.santosspinheiro@gmail.com"
      || Normalize(email) == "giovannahgsantos@gmail.com"
      || Normalize(email) == "admin@gmail.com"
  {
    var n := Normalize(email);
    assert n in ALLOWED_EMAILS <==>
      n == "julia.santosspinheiro@gmail.com" || n == "giovannahgsantos@gmail.com" || n == "admin@gmail.com";
  }
}
