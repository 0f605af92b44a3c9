/**
 * The customer portal layout's two bits of logic: the avatar initials of the user's
 * name, and which navigation tab is highlighted for the current location.
 */
module PortalLayout {
  import Text
  import Seqs

  /** `part.charAt(0)`: the first character, or "" for an empty part. */
  function CharAt0(s: string): string {
    if s == [] then "" else [s[0]]
  }

  function FirstChars(parts: seq<string>): (r: seq<string>)
    ensures |r| == |parts| && forall i :: 0 <= i < |parts| ==> r[i] == CharAt0(parts[i])
  {
    seq(|parts|, i requires 0 <= i < |parts| => CharAt0(parts[i]))
  }

  function Min(a: int, b: int): int { if a <= b then a else b }

  /** `getInitials`: split on spaces, take each part's first character, join, upper-case, keep two. */
  function GetInitials(name: string): (r: string)
    ensures |r| <= 2
  {
    var joined := Text.Join(FirstChars(Text.Split(name, ' ')), "");
    var upper := Text.ToUpper(joined);
    upper[..Min(2, |upper|)]
  }

  predicate NonEmpty(s: string) { s != "" }

  /** The words of a name: its space-separated parts, without the empty ones repeated spaces leave. */
  function Words(name: string): seq<string> {
    Seqs.Filter(Text.Split(name, ' '), NonEmpty)
  }

  /** The first characters of the non-empty parts, in order. */
  function Heads(parts: seq<string>): (r: string)
    ensures |r| == |Seqs.Filter(parts, NonEmpty)|
    ensures forall i :: 0 <= i < |r| ==> r[i] == Seqs.Filter(parts, NonEmpty)[i][0]
    decreases |parts|
  {
    if parts == [] then ""
    else CharAt0(parts[0]) + Heads(parts[1..])
  }

  lemma HeadsCons(parts: seq<string>)
    requires parts != []
    ensures Heads(parts) == CharAt0(parts[0]) + Heads(parts[1..])
  {
  }

  lemma FirstCharsCons(parts: seq<string>)
    requires |parts| > 1
    ensures Text.Join(FirstChars(parts), "") == CharAt0(parts[0]) + Text.Join(FirstChars(parts[1..]), "")
  {
    var firsts := FirstChars(parts);
    assert firsts[1..] == FirstChars(parts[1..]);
  }

  /** Joining the `charAt(0)`s with no separator gives the heads of the non-empty parts. */
  lemma {:induction false} JoinFirstChars(parts: seq<string>)
    ensures Text.Join(FirstChars(parts), "") == Heads(parts)
    decreases |parts|
  {
    if |parts| == 1 {
      assert FirstChars(parts) == [CharAt0(parts[0])];
      HeadsCons(parts);
      assert Heads(parts[1..]) == "";
    } else if |parts| > 1 {
      JoinFirstChars(parts[1..]);
      FirstCharsCons(parts);
      HeadsCons(parts);
    }
  }

  /**
   * The initials are the upper-cased first characters of the first two words of
   * the name (fewer when the name has fewer words).
   */
  lemma {:induction false} InitialsAreWordHeads(name: string)
    ensures var r, words := GetInitials(name), Words(name);
            |r| == Min(2, |words|) &&
            forall i :: 0 <= i < |r| ==> r[i] == Text.UpperChar(words[i][0])
  {
    JoinFirstChars(Text.Split(name, ' '));
  }

  /** Names whose first two words agree have the same initials. */
  lemma {:induction false} InitialsOfAgreeingNames(a: string, b: string)
    requires |Words(a)| == |Words(b)| || (|Words(a)| >= 2 && |Words(b)| >= 2)
    requires forall i :: 0 <= i < Min(2, |Words(a)|) ==> Words(a)[i] == Words(b)[i]
    ensures GetInitials(a) == GetInitials(b)
  {
    InitialsAreWordHeads(a);
    InitialsAreWordHeads(b);
  }

  /** An empty name has no initials; a single word (no space) gives its first letter, upper-cased. */
  lemma {:induction false} InitialsOfShortNames(word: string)
    ensures GetInitials("") == ""
    ensures word != "" && ' ' !in word ==> GetInitials(word) == [Text.UpperChar(word[0])]
  {
    InitialsAreWordHeads("");
    assert Text.Split("", ' ') == [""];
    assert Words("") == [];
    if word != "" && ' ' !in word {
      Text.SplitWithoutSeparator(word, ' ');
      assert Words(word) == [word];
      InitialsAreWordHeads(word);
    }
  }

  const PortalHome := "/portal"

  /** The hrefs of the portal's navigation items, in display order. */
  const NavHrefs: seq<string> := ["/portal", "/portal/invoices", "/portal/estimates", "/portal/payments", "/portal/profile"]

  /** A nav item is active on its own href, or, except the home item, on any location that starts with it. */
  predicate IsActive(location: string, href: string)
    ensures href == PortalHome ==> (IsActive(location, href) <==> location == href)
    ensures href != PortalHome ==> (IsActive(location, href) <==> Text.StartsWith(location, href))
  {
    location == href || (href != PortalHome && Text.StartsWith(location, href))
  }

  /** The home item is active only on "/portal" itself, not on the pages under it. */
  lemma HomeActiveOnlyAtHome(location: string)
    ensures IsActive(location, PortalHome) <==> location == PortalHome
  {
  }

  /** The prefix test is textual: "/portal/invoicesX" highlights the Invoices item. */
  lemma PrefixIsTextual()
    ensures IsActive("/portal/invoicesX", "/portal/invoices")
    ensures IsActive("/portal/invoices/42", "/portal/invoices")
    ensures !IsActive("/portal/invoices", PortalHome)
  {
    assert "/portal/invoicesX"[..|"/portal/invoices"|] == "/portal/invoices";
    assert "/portal/invoices/42"[..|"/portal/invoices"|] == "/portal/invoices";
  }

  lemma {:induction false} CommonPrefix(s: string, a: string, b: string)
    requires Text.StartsWith(s, a) && Text.StartsWith(s, b) && |a| <= |b|
    ensures Text.StartsWith(b, a)
  {
    assert b[..|a|] == s[..|b|][..|a|] == s[..|a|];
  }

  /** Two hrefs of at least ten characters that both prefix one location agree on their first ten. */
  lemma {:induction false} SharedPrefix(location: string, a: string, b: string)
    requires |a| >= 10 && |b| >= 10
    ensures Text.StartsWith(location, a) && Text.StartsWith(location, b) ==> a[..10] == b[..10]
  {
    if Text.StartsWith(location, a) && Text.StartsWith(location, b) {
      assert a[..10] == location[..|a|][..10] == location[..10];
      assert b[..10] == location[..|b|][..10] == location[..10];
    }
  }

  /** Below the home item, the first ten characters tell the hrefs apart. */
  lemma {:induction false} NavHrefsDiffer(i: int, j: int)
    requires 1 <= i < j < |NavHrefs|
    ensures |NavHrefs[i]| >= 10 && |NavHrefs[j]| >= 10 && NavHrefs[i][..10] != NavHrefs[j][..10]
  {
    var a, b := NavHrefs[i], NavHrefs[j];
    assert a[..10][9] == a[9] && b[..10][9] == b[9];
    if i == 1 {
      assert a[9] == 'n' && b[9] != 'n';
    } else if i == 2 {
      assert a[9] == 's' && b[9] != 's';
    } else {
      assert a[9] == 'a' && b[9] == 'r';
    }
  }

  /** For any location, at most one navigation item is highlighted. */
  lemma {:induction false} AtMostOneActive(location: string, i: int, j: int)
    requires 0 <= i < j < |NavHrefs|
    ensures !(IsActive(location, NavHrefs[i]) && IsActive(location, NavHrefs[j]))
  {
    if i == 0 {
      assert |NavHrefs[j]| > |PortalHome|;
    } else {
      NavHrefsDiffer(i, j);
      SharedPrefix(location, NavHrefs[i], NavHrefs[j]);
    }
  }
}
