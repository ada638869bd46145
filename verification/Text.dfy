/** How an amendment body is normalised before it is digested or embedded. */
module Text {

  /** The white space `str::trim` removes. */
  predicate IsSpace(c: char) {
    '\t' <= c <= '\r'
        || c in {' ', '\U{85}', '\U{A0}', '\U{1680}', '\U{2028}', '\U{2029}', '\U{202F}', '\U{205F}', '\U{3000}'}
    || '\U{2000}' <= c <= '\U{200A}'
  }

  function TrimStart(s: string): (r: string)
    ensures |r| <= |s| && (r == [] || !IsSpace(r[0]))
  {
    if s != [] && IsSpace(s[0]) then TrimStart(s[1..]) else s
  }

  function TrimEnd(s: string): (r: string)
    ensures r <= s && (r == [] || !IsSpace(r[|r| - 1]))
  {
    if s != [] && IsSpace(s[|s| - 1]) then TrimEnd(s[..|s| - 1]) else s
  }

  predicate Trimmed(s: string) { s == [] || (!IsSpace(s[0]) && !IsSpace(s[|s| - 1])) }

  function Trim(s: string): (r: string)
    ensures |r| <= |s| && Trimmed(r)
  {
    TrimEnd(TrimStart(s))
  }

  predicate ClosesAt(s: string, i: nat)
    requires i < |s| - 1
  {
    s[i] == '?' && s[i + 1] == '>'
  }

  /** Where a text first contains `?>`, if it does. */
  function FindClose(s: string): (r: int)
    ensures r == -1 || (0 <= r < |s| - 1 && ClosesAt(s, r))
    ensures forall i :: 0 <= i < |s| - 1 && (r == -1 || i < r) ==> !ClosesAt(s, i)
  {
    if |s| < 2 then -1
    else if ClosesAt(s, 0) then 0
    else
      var rest := FindClose(s[1..]);
      assert forall i :: 1 <= i < |s| - 1 ==> ClosesAt(s, i) == ClosesAt(s[1..], i - 1);
      if rest == -1 then -1 else rest + 1
  }

  const DECLARATION := "<?xml"

  /** The text opens with an XML declaration that is also closed. */
  predicate Declared(s: string) { DECLARATION <= s && FindClose(s[5..]) != -1 }

  /** `normalise_body`: white space off both ends, and one leading declaration. */
  function Normalise(text: string): string {
    var trimmed := Trim(text);
    if Declared(trimmed) then Trim(trimmed[5..][FindClose(trimmed[5..]) + 2..]) else trimmed
  }

  lemma TrimmedIsFixed(s: string)
    requires Trimmed(s)
    ensures Trim(s) == s
  {
  }

  /**
   Normalising twice is normalising once exactly when one declaration was all there was: a
   body that still opens with a declaration after the first time loses that one too.
   */
  lemma NormaliseTwice(text: string)
    ensures Normalise(Normalise(text)) == Normalise(text) <==> !Declared(Normalise(text))
    ensures Normalise(text) == text ==> !Declared(Normalise(text))
  {
    var once := Normalise(text);
    TrimmedIsFixed(once);
    if Declared(once) {
      var rest := once[5..][FindClose(once[5..]) + 2..];
      assert |Trim(rest)| < |once|;
    }
  }

  predicate Spaces(s: string) { forall c :: c in s ==> IsSpace(c) }

  lemma {:induction false} LeadingSpaces(a: string, s: string)
    requires Spaces(a)
    ensures TrimStart(a + s) == TrimStart(s)
  {
    hide IsSpace;
    if a == "" {
      assert a + s == s;
    } else {
      assert a[0] in a && (a + s)[1..] == a[1..] + s;
      LeadingSpaces(a[1..], s);
    }
  }

  lemma {:induction false} TrailingSpaces(s: string, z: string)
    requires Spaces(z)
    ensures TrimEnd(s + z) == TrimEnd(s)
  {
    hide IsSpace;
    var n := |z| - 1;
    if z == "" {
      assert s + z == s;
    } else {
      assert z[n] in z && (s + z)[..|s + z| - 1] == s + z[..n];
      TrailingSpaces(s, z[..n]);
    }
  }

  /** Trimming is what is left between the white space on either side. */
  lemma TrimIsTheMiddle(a: string, s: string, z: string)
    requires Spaces(a) && Spaces(z) && Trimmed(s)
    ensures Trim(a + s + z) == s
  {
    hide IsSpace;
    assert a + s + z == a + (s + z);
    LeadingSpaces(a, s + z);
    if s == "" {
      assert s + z == z == z + "";
      LeadingSpaces(z, "");
    } else {
      assert TrimStart(s + z) == s + z;
      TrailingSpaces(s, z);
    }
  }

  lemma {:induction false} StartSplits(s: string) returns (a: string)
    ensures s == a + TrimStart(s) && Spaces(a)
  {
    hide IsSpace;
    if s == "" || !IsSpace(s[0]) {
      a := "";
    } else {
      var b := StartSplits(s[1..]);
      a := [s[0]] + b;
      calc {
        s;
        [s[0]] + s[1..];
        [s[0]] + (b + TrimStart(s[1..]));
        a + TrimStart(s);
      }
    }
  }

  lemma {:induction false} EndSplits(s: string) returns (z: string)
    ensures s == TrimEnd(s) + z && Spaces(z)
  {
    hide IsSpace;
    var n := |s| - 1;
    if s == "" || !IsSpace(s[n]) {
      z := "";
    } else {
      var y := EndSplits(s[..n]);
      z := y + [s[n]];
      assert s == s[..n] + [s[n]];
    }
  }

  /** And every text is such a middle with white space around it. */
  lemma TrimSplits(s: string) returns (a: string, z: string)
    ensures s == a + Trim(s) + z && Spaces(a) && Spaces(z)
  {
    hide Spaces, TrimStart, TrimEnd;
    a := StartSplits(s);
    z := EndSplits(TrimStart(s));
  }

  /** Nothing closes inside: the first `?>` after it is the one that follows. */
  predicate Unclosed(inner: string) {
    forall i :: 0 <= i < |inner| ==> !ClosesAt(inner + "?", i)
  }

  lemma ClosesAfter(inner: string, rest: string)
    requires Unclosed(inner)
    ensures FindClose(inner + "?>" + rest) == |inner|
  {
    var s := inner + "?>" + rest;
    assert ClosesAt(s, |inner|);
    assert forall i :: 0 <= i < |inner| ==> ClosesAt(s, i) == ClosesAt(inner + "?", i);
  }

  /** A body that opens with no closed declaration loses only the white space around it. */
  lemma PlainBody(a: string, body: string, z: string)
    requires Spaces(a) && Spaces(z) && Trimmed(body)
    requires !(DECLARATION <= body && exists i :: 5 <= i < |body| - 1 && ClosesAt(body, i))
    ensures Normalise(a + body + z) == body
  {
    TrimIsTheMiddle(a, body, z);
    if DECLARATION <= body {
      var rest := body[5..];
      assert FindClose(rest) != -1 ==> ClosesAt(body, FindClose(rest) + 5);
    }
  }

  lemma DeclarationIsTrimmed(inner: string, rest: string)
    requires rest == "" || !IsSpace(rest[|rest| - 1])
    ensures Trimmed(DECLARATION + inner + "?>" + rest)
  {
    var text := DECLARATION + inner + "?>" + rest;
    assert text[0] == '<' && text[|text| - 1] == (if rest == "" then '>' else rest[|rest| - 1]);
  }

  lemma DeclarationGoes(text: string, inner: string, rest: string)
    requires Trim(text) == DECLARATION + inner + "?>" + rest && Unclosed(inner)
    ensures Normalise(text) == Trim(rest)
  {
    hide Trim, FindClose, Unclosed;
    var trimmed := Trim(text);
    assert trimmed == DECLARATION + (inner + "?>" + rest);
    ClosesAfter(inner, rest);
    assert trimmed[5..] == inner + "?>" + rest;
    assert trimmed[5..][|inner| + 2..] == rest;
  }

  /**
   Whatever opens with `<?xml` and is closed loses that much, up to the first close, and the white
   space on either side; whether it is a declaration or not.
   */
  lemma StripsOne(a: string, inner: string, rest: string, z: string)
    requires Spaces(a) && Spaces(z) && Unclosed(inner) && (rest == "" || !IsSpace(rest[|rest| - 1]))
    ensures Normalise(a + (DECLARATION + inner + "?>" + rest) + z) == Trim(rest)
  {
    hide Normalise, Trim, IsSpace;
    var text := DECLARATION + inner + "?>" + rest;
    DeclarationIsTrimmed(inner, rest);
    TrimIsTheMiddle(a, text, z);
    DeclarationGoes(a + text + z, inner, rest);
  }

  /** A body that survives one pass and not two. */
  const STYLED := "<?xml?><?xml-stylesheet ?><a/>"

  const STYLE_ONLY := "<?xml-stylesheet ?><a/>"

  /** With nothing around it, a declaration goes and the rest stays. */
  lemma StripsBare(inner: string, rest: string)
    requires Unclosed(inner) && Trimmed(rest)
    ensures Normalise(DECLARATION + inner + "?>" + rest) == rest
  {
    hide Normalise, IsSpace, Unclosed;
    StripsOne("", inner, rest, "");
    TrimmedIsFixed(rest);
    var text := DECLARATION + inner + "?>" + rest;
    assert "" + text + "" == text;
  }

  lemma FirstPass()
    ensures Normalise(STYLED) == STYLE_ONLY
  {
    hide Normalise;
    StripsBare("", STYLE_ONLY);
    assert DECLARATION + "" + "?>" + STYLE_ONLY == STYLED;
  }

  lemma SecondPass()
    ensures Normalise(STYLE_ONLY) == "<a/>"
  {
    hide Normalise;
    StripsBare("-stylesheet ", "<a/>");
    assert DECLARATION + "-stylesheet " + "?>" + "<a/>" == STYLE_ONLY;
  }

  /**
   Where it is not idempotent: a declaration, then a processing instruction whose target begins
   with `xml`. The first pass strips the declaration and leaves the instruction in front; the
   second takes the instruction for another declaration.
   */
  lemma StackedDeclarations()
    ensures Normalise(STYLED) == STYLE_ONLY && Normalise(STYLE_ONLY) == "<a/>"
    ensures Normalise(Normalise(STYLED)) != Normalise(STYLED)
  {
    hide Normalise;
    FirstPass();
    SecondPass();
    assert |STYLED| > |STYLE_ONLY| > |"<a/>"|;
  }

  ghost predicate HoldsAt(text: string, part: string, i: int) {
    0 <= i <= |text| - |part| && text[i..i + |part|] == part
  }

  /** The text holds `part`, byte for byte, somewhere. */
  ghost predicate Contains(text: string, part: string) {
    exists i :: HoldsAt(text, part, i)
  }

  lemma Embedded(before: string, part: string, after: string)
    ensures Contains(before + part + after, part)
  {
    assert HoldsAt(before + part + after, part, |before|);
  }
}
