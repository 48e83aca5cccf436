/** Lines of text as the line editors see them: white space, indentation, blank lines. */
module Text {
  /** str.isspace, which is also what \s matches. */
  predicate IsSpace(c: char) {
    || '\t' <= c <= '\r' || '\U{1c}' <= c <= ' ' || c == '\U{85}' || c == '\U{a0}' || c == '\U{1680}'
    || '\U{2000}' <= c <= '\U{200a}' || c == '\U{2028}' || c == '\U{2029}' || c == '\U{202f}' || c == '\U{205f}'
    || c == '\U{3000}'
  }

  /** White space by its code points: those Unicode gives the property, and the four separators of ASCII. */
  lemma SpacesAre(c: char)
    ensures IsSpace(c) <==> c as int in {9, 10, 11, 12, 13, 28, 29, 30, 31, 32, 0x85, 0xa0, 0x1680, 0x2000, 0x2001,
        0x2002, 0x2003, 0x2004, 0x2005, 0x2006, 0x2007, 0x2008, 0x2009, 0x200a, 0x2028, 0x2029, 0x202f, 0x205f, 0x3000}
  {
  }

  /** len(s) - len(s.lstrip()). */
  function Lead(s: string): (n: nat)
    ensures n <= |s|
    ensures forall k :: 0 <= k < n ==> IsSpace(s[k])
    ensures n < |s| ==> !IsSpace(s[n])
  {
    if s == "" || !IsSpace(s[0]) then 0 else 1 + Lead(s[1..])
  }

  predicate Blank(s: string) { Lead(s) == |s| }

  function TrimEnd(s: string): (t: string)
    ensures t <= s
    ensures t != "" ==> !IsSpace(t[|t| - 1])
    ensures forall k :: |t| <= k < |s| ==> IsSpace(s[k])
  {
    if s == "" || !IsSpace(s[|s| - 1]) then s else TrimEnd(s[..|s| - 1])
  }

  function Strip(s: string): string { TrimEnd(s[Lead(s)..]) }

  lemma LeadUnique(s: string, n: nat)
    requires n <= |s| && (forall k :: 0 <= k < n ==> IsSpace(s[k])) && (n < |s| ==> !IsSpace(s[n]))
    ensures Lead(s) == n
  {
  }

  /** Indenting a text that starts and ends with something visible. */
  lemma StripIndented(ind: string, text: string)
    requires forall k :: 0 <= k < |ind| ==> IsSpace(ind[k])
    requires text != "" && !IsSpace(text[0]) && !IsSpace(text[|text| - 1])
    ensures Lead(ind + text) == |ind| && Strip(ind + text) == text
  {
    LeadUnique(ind + text, |ind|);
    assert (ind + text)[|ind|..] == text;
  }

  /** What a line strips to starts where its indentation ends. */
  lemma StripStarts(s: string)
    ensures Blank(s) <==> Strip(s) == ""
    ensures !Blank(s) ==> Strip(s)[0] == s[Lead(s)]
  {
  }
}
