/**
 * The REPL's input normalisation, `cleanInput`: lower-case the line, trim the
 * surrounding white space and split it into white-space separated words
 * (Go's strings.ToLower, strings.TrimSpace and strings.Fields). Both REPL
 * packages carry the same definition; it is modelled once here.
 *
 * Lower-casing and white space are ASCII only: `A`-`Z` map to `a`-`z`, and the
 * white-space characters are space, tab, line feed, vertical tab, form feed
 * and carriage return.
 */
module TextInput {

  /** The ASCII white space of strings.Fields and strings.TrimSpace. */
  predicate IsSpace(c: char) {
    c == ' ' || '\t' <= c <= '\r'
  }

  predicate IsUpper(c: char) {
    'A' <= c <= 'Z'
  }

  /** A word of the split: non-empty and free of white space. */
  predicate IsWord(w: string) {
    w != [] && forall i :: 0 <= i < |w| ==> !IsSpace(w[i])
  }

  predicate IsLowerCase(w: string) {
    forall i :: 0 <= i < |w| ==> !IsUpper(w[i])
  }

  predicate AllSpace(s: string) {
    forall i :: 0 <= i < |s| ==> IsSpace(s[i])
  }

  function ToLowerChar(c: char): (r: char)
    ensures !IsUpper(r)
    ensures IsSpace(r) == IsSpace(c)
    ensures !IsUpper(c) ==> r == c
  {
    if IsUpper(c) then (c as int + 32) as char else c
  }

  /** strings.ToLower, restricted to ASCII. */
  function ToLower(s: string): (r: string)
    ensures |r| == |s|
    ensures forall i :: 0 <= i < |s| ==> r[i] == ToLowerChar(s[i])
  {
    seq(|s|, i requires 0 <= i < |s| => ToLowerChar(s[i]))
  }

  /** Drops the leading white space. */
  function TrimLeft(s: string): string {
    if s != [] && IsSpace(s[0]) then TrimLeft(s[1..]) else s
  }

  /** Drops the trailing white space. */
  function TrimRight(s: string): string {
    if s != [] && IsSpace(s[|s| - 1]) then TrimRight(s[..|s| - 1]) else s
  }

  /** strings.TrimSpace. */
  function TrimSpace(s: string): string {
    TrimRight(TrimLeft(s))
  }

  /** The length of the word that starts the string: up to the first white space. */
  function WordLength(s: string): (n: nat)
    ensures n <= |s|
    ensures forall i :: 0 <= i < n ==> !IsSpace(s[i])
    ensures n == |s| || IsSpace(s[n])
  {
    if s == [] || IsSpace(s[0]) then 0 else 1 + WordLength(s[1..])
  }

  /** strings.Fields: the maximal runs of non-white-space characters, in order. */
  function Fields(s: string): (r: seq<string>)
    ensures forall i :: 0 <= i < |r| ==> IsWord(r[i])
    ensures IsLowerCase(s) ==> forall i :: 0 <= i < |r| ==> IsLowerCase(r[i])
    decreases |s|
  {
    if s == [] then []
    else if IsSpace(s[0]) then Fields(s[1..])
    else
      var n := WordLength(s);
      [s[..n]] + Fields(s[n..])
  }

  /** The characters of a string that are not white space, in order. */
  function NonSpace(s: string): string {
    if s == [] then []
    else (if IsSpace(s[0]) then [] else [s[0]]) + NonSpace(s[1..])
  }

  function Concat(ws: seq<string>): string {
    if ws == [] then [] else ws[0] + Concat(ws[1..])
  }

  /** The words separated by single spaces. */
  function Join(ws: seq<string>): string {
    if ws == [] then []
    else if |ws| == 1 then ws[0]
    else ws[0] + " " + Join(ws[1..])
  }

  /** cleanInput (internal/repl/repl.go and repl/repl.go). */
  function CleanInput(input: string): seq<string> {
    var lowered := ToLower(input);
    Fields(TrimSpace(lowered))
  }

  /** The words are non-empty, free of white space, and in lower case. */
  lemma CleanInputWords(input: string)
    ensures forall i :: 0 <= i < |CleanInput(input)| ==>
              IsWord(CleanInput(input)[i]) && IsLowerCase(CleanInput(input)[i])
  {
    TrimSpaceLowerCase(ToLower(input));
  }

  /** Trimming keeps a lower-case string lower-case. */
  lemma {:induction false} TrimSpaceLowerCase(s: string)
    requires IsLowerCase(s)
    ensures IsLowerCase(TrimSpace(s))
  {
    TrimLeftLowerCase(s);
    TrimRightLowerCase(TrimLeft(s));
  }

  lemma {:induction false} TrimLeftLowerCase(s: string)
    requires IsLowerCase(s)
    ensures IsLowerCase(TrimLeft(s))
  {
    if s != [] && IsSpace(s[0]) {
      TrimLeftLowerCase(s[1..]);
    }
  }

  lemma {:induction false} TrimRightLowerCase(s: string)
    requires IsLowerCase(s)
    ensures IsLowerCase(TrimRight(s))
  {
    if s != [] && IsSpace(s[|s| - 1]) {
      TrimRightLowerCase(s[..|s| - 1]);
    }
  }

  /** EqualFold of two strings under ASCII case folding. */
  predicate EqualFold(a: string, b: string) {
    ToLower(a) == ToLower(b)
  }

  // ---------------------------------------------------------------------------
  // Lemmas about white space: what the filters keep.

  lemma {:induction false} NonSpaceAppend(a: string, b: string)
    ensures NonSpace(a + b) == NonSpace(a) + NonSpace(b)
  {
    if a != [] {
      assert (a + b)[1..] == a[1..] + b;
      NonSpaceAppend(a[1..], b);
    } else {
      assert a + b == b;
    }
  }

  lemma {:induction false} NonSpaceOfWord(w: string)
    requires forall i :: 0 <= i < |w| ==> !IsSpace(w[i])
    ensures NonSpace(w) == w
  {
    if w != [] {
      NonSpaceOfWord(w[1..]);
    }
  }

  lemma {:induction false} NonSpaceEmpty(s: string)
    ensures NonSpace(s) == [] <==> AllSpace(s)
  {
    if s != [] {
      NonSpaceEmpty(s[1..]);
      if AllSpace(s[1..]) && IsSpace(s[0]) {
        forall i | 0 <= i < |s| ensures IsSpace(s[i]) {
          if i > 0 { assert s[i] == s[1..][i - 1]; }
        }
      }
    }
  }

  // ---------------------------------------------------------------------------
  // Lemmas about Fields.

  /** The words hold exactly the non-white-space characters, in their original order. */
  lemma {:induction false} FieldsConcat(s: string)
    ensures Concat(Fields(s)) == NonSpace(s)
    decreases |s|
  {
    if s == [] {
    } else if IsSpace(s[0]) {
      FieldsConcat(s[1..]);
    } else {
      var n := WordLength(s);
      assert s == s[..n] + s[n..];
      FieldsConcat(s[n..]);
      NonSpaceAppend(s[..n], s[n..]);
      NonSpaceOfWord(s[..n]);
      assert Fields(s)[1..] == Fields(s[n..]);
    }
  }

  lemma {:induction false} FieldsOfAllSpace(s: string)
    requires AllSpace(s)
    ensures Fields(s) == []
  {
    if s != [] {
      FieldsOfAllSpace(s[1..]);
    }
  }

  lemma {:induction false} WordLengthExtend(a: string, t: string)
    requires WordLength(a) < |a| || (t != [] && IsSpace(t[0]))
    ensures WordLength(a + t) == WordLength(a)
  {
    if a == [] {
      assert a + t == t;
    } else {
      assert (a + t)[0] == a[0];
      if !IsSpace(a[0]) {
        assert (a + t)[1..] == a[1..] + t;
        WordLengthExtend(a[1..], t);
      }
    }
  }

  /** Slicing a concatenation inside its left part. */
  lemma SliceAppend(a: string, t: string, m: nat)
    requires m <= |a|
    ensures (a + t)[..m] == a[..m]
    ensures (a + t)[m..] == a[m..] + t
  {
  }

  /** Splitting before a white-space character splits the words. */
  lemma {:induction false} FieldsSplitAt(a: string, t: string)
    requires t != [] && IsSpace(t[0])
    ensures Fields(a + t) == Fields(a) + Fields(t[1..])
    decreases |a|
  {
    if a == [] {
      assert a + t == t;
    } else if IsSpace(a[0]) {
      assert (a + t)[1..] == a[1..] + t;
      FieldsSplitAt(a[1..], t);
    } else {
      var m := WordLength(a);
      WordLengthExtend(a, t);
      SliceAppend(a, t, m);
      FieldsSplitAt(a[m..], t);
    }
  }

  /** Splitting at a white-space character splits the words. */
  lemma FieldsSplit(a: string, c: char, b: string)
    requires IsSpace(c)
    ensures Fields(a + [c] + b) == Fields(a) + Fields(b)
  {
    var t := [c] + b;
    assert a + [c] + b == a + t;
    assert t[1..] == b;
    FieldsSplitAt(a, t);
  }

  lemma {:induction false} FieldsTrimLeft(s: string)
    ensures Fields(TrimLeft(s)) == Fields(s)
  {
    if s != [] && IsSpace(s[0]) {
      FieldsTrimLeft(s[1..]);
    }
  }

  lemma {:induction false} FieldsTrimRight(s: string)
    ensures Fields(TrimRight(s)) == Fields(s)
  {
    if s != [] && IsSpace(s[|s| - 1]) {
      var init := s[..|s| - 1];
      FieldsTrimRight(init);
      assert s == init + [s[|s| - 1]] + [];
      FieldsSplit(init, s[|s| - 1], []);
    }
  }

  lemma ToLowerAppend(a: string, b: string)
    ensures ToLower(a + b) == ToLower(a) + ToLower(b)
  {
    var l, r := ToLower(a + b), ToLower(a) + ToLower(b);
    assert |l| == |r|;
    forall i | 0 <= i < |l| ensures l[i] == r[i] {
      if i < |a| { assert (a + b)[i] == a[i]; } else { assert (a + b)[i] == b[i - |a|]; }
    }
  }

  // ---------------------------------------------------------------------------
  // Lemmas about CleanInput.

  /** Trimming before the split changes nothing. */
  lemma CleanInputIsFields(input: string)
    ensures CleanInput(input) == Fields(ToLower(input))
  {
    FieldsTrimLeft(ToLower(input));
    FieldsTrimRight(TrimLeft(ToLower(input)));
  }

  /** The words are the lowered non-white-space characters of the input, in order. */
  lemma CleanInputConcat(input: string)
    ensures Concat(CleanInput(input)) == NonSpace(ToLower(input))
  {
    CleanInputIsFields(input);
    FieldsConcat(ToLower(input));
  }

  /** Blank input, and only blank input, gives no words. */
  lemma CleanInputBlank(input: string)
    ensures CleanInput(input) == [] <==> AllSpace(input)
  {
    var lowered := ToLower(input);
    CleanInputConcat(input);
    NonSpaceEmpty(lowered);
    CleanInputIsFields(input);
    if AllSpace(input) {
      FieldsOfAllSpace(lowered);
    }
    assert AllSpace(lowered) <==> AllSpace(input);
  }

  /** A white-space character separates the words of its two sides. */
  lemma CleanInputSplit(a: string, c: char, b: string)
    requires IsSpace(c)
    ensures CleanInput(a + [c] + b) == CleanInput(a) + CleanInput(b)
  {
    CleanInputIsFields(a + [c] + b);
    CleanInputIsFields(a);
    CleanInputIsFields(b);
    ToLowerAppend(a + [c], b);
    ToLowerAppend(a, [c]);
    assert ToLower([c]) == [c];
    FieldsSplit(ToLower(a), c, ToLower(b));
  }

  lemma CleanInputEmpty()
    ensures CleanInput([]) == []
  {
    CleanInputIsFields([]);
  }

  /** Leading white space of any length is dropped. */
  lemma {:induction false} CleanInputLeadingSpace(sp: string, s: string)
    requires AllSpace(sp)
    ensures CleanInput(sp + s) == CleanInput(s)
  {
    if sp != [] {
      CleanInputLeadingSpace(sp[1..], s);
      assert sp + s == [] + [sp[0]] + (sp[1..] + s);
      CleanInputSplit([], sp[0], sp[1..] + s);
      CleanInputEmpty();
    } else {
      assert sp + s == s;
    }
  }

  /** A word in any case cleans to its lower-case form. */
  lemma CleanInputOfWord(w: string)
    requires IsWord(w)
    ensures CleanInput(w) == [ToLower(w)]
  {
    CleanInputIsFields(w);
    var l := ToLower(w);
    assert !IsSpace(l[0]);
    assert WordLength(l) == |l|;
    assert Fields(l) == [l[..|l|]] + Fields(l[|l|..]);
    assert l[..|l|] == l;
    assert l[|l|..] == [];
  }

  function LowerAll(ws: seq<string>): (r: seq<string>)
    ensures |r| == |ws|
    ensures forall i :: 0 <= i < |ws| ==> r[i] == ToLower(ws[i])
  {
    if ws == [] then [] else [ToLower(ws[0])] + LowerAll(ws[1..])
  }

  /**
   * An independent description of an input line: gap 0, word 0, gap 1, ...,
   * word n-1, gap n, where the gaps are white space and the inner gaps are not
   * empty.
   */
  function Layout(ws: seq<string>, gaps: seq<string>): string
    requires |gaps| == |ws| + 1
  {
    if ws == [] then gaps[0] else gaps[0] + (ws[0] + Layout(ws[1..], gaps[1..]))
  }

  predicate WellSpaced(ws: seq<string>, gaps: seq<string>) {
    && |gaps| == |ws| + 1
    && (forall i :: 0 <= i < |ws| ==> IsWord(ws[i]))
    && (forall i :: 0 <= i < |gaps| ==> AllSpace(gaps[i]))
    && (forall i :: 0 < i < |ws| ==> gaps[i] != [])
  }

  /**
   * cleanInput recovers the words of any well-spaced line, lowered and in
   * order, whatever the lengths of the gaps. The cases of TestCleanInput are
   * instances: " hello world " is the layout of ["hello", "world"] with gaps
   * [" ", " ", " "], and "  GoLang  is  Awesome " that of
   * ["GoLang", "is", "Awesome"] with gaps ["  ", "  ", "  ", " "].
   */
  lemma {:induction false} CleanInputLayout(ws: seq<string>, gaps: seq<string>)
    requires WellSpaced(ws, gaps)
    ensures CleanInput(Layout(ws, gaps)) == LowerAll(ws)
  {
    if ws == [] {
      CleanInputLeadingSpace(gaps[0], []);
      assert gaps[0] + [] == gaps[0];
      CleanInputEmpty();
    } else {
      var rest := Layout(ws[1..], gaps[1..]);
      assert WellSpaced(ws[1..], gaps[1..]) by {
        assert forall i :: 0 < i < |ws[1..]| ==> gaps[1..][i] == gaps[i + 1];
      }
      CleanInputLayout(ws[1..], gaps[1..]);
      LayoutStart(ws[1..], gaps[1..]);
      CleanInputLeadingSpace(gaps[0], ws[0] + rest);
      CleanInputWordThen(ws[0], rest);
    }
  }

  lemma LayoutStart(ws: seq<string>, gaps: seq<string>)
    requires WellSpaced(ws, gaps)
    requires ws == [] || gaps[0] != []
    ensures Layout(ws, gaps) == [] || IsSpace(Layout(ws, gaps)[0])
  {
  }

  /** A word followed by white space, or by nothing, is one word of the result. */
  lemma CleanInputWordThen(w: string, rest: string)
    requires IsWord(w)
    requires rest == [] || IsSpace(rest[0])
    ensures CleanInput(w + rest) == [ToLower(w)] + CleanInput(rest)
  {
    if rest == [] {
      assert w + rest == w;
      CleanInputOfWord(w);
      CleanInputEmpty();
    } else {
      assert rest == [rest[0]] + rest[1..];
      CleanInputWordSpace(w, rest[0], rest[1..]);
    }
  }

  lemma CleanInputWordSpace(w: string, c: char, t: string)
    requires IsWord(w) && IsSpace(c)
    ensures CleanInput(w + ([c] + t)) == [ToLower(w)] + CleanInput([c] + t)
  {
    CleanInputOfWord(w);
    assert w + ([c] + t) == w + [c] + t;
    CleanInputSplit(w, c, t);
    CleanInputLeadingSpace([c], t);
  }

  /** Joining lower-case words with single spaces and cleaning gives the words back. */
  lemma {:induction false} CleanInputJoin(ws: seq<string>)
    requires forall i :: 0 <= i < |ws| ==> IsWord(ws[i]) && IsLowerCase(ws[i])
    ensures CleanInput(Join(ws)) == ws
  {
    if ws == [] {
      CleanInputEmpty();
    } else if |ws| == 1 {
      CleanInputOfWord(ws[0]);
      assert ToLower(ws[0]) == ws[0];
    } else {
      CleanInputJoin(ws[1..]);
      CleanInputOfWord(ws[0]);
      assert ToLower(ws[0]) == ws[0];
      CleanInputSplit(ws[0], ' ', Join(ws[1..]));
      assert ws[0] + " " + Join(ws[1..]) == ws[0] + [' '] + Join(ws[1..]);
    }
  }

  /** The blank cases of TestCleanInput. */
  lemma CleanInputTestBlank()
    ensures CleanInput("") == []
    ensures CleanInput("   ") == []
  {
    CleanInputBlank("");
    CleanInputBlank("   ");
  }

  /** A word already in lower case is its own lowering. */
  lemma ToLowerOfLowerCase(w: string)
    requires IsLowerCase(w)
    ensures ToLower(w) == w
  {
  }

  /** The words and gaps of " hello world ": single spaces all round. */
  lemma HelloWorldSpacing()
    ensures WellSpaced(["hello", "world"], [" ", " ", " "])
  {
  }

  lemma HelloWorldLayout()
    ensures Layout(["hello", "world"], [" ", " ", " "]) == " hello world "
  {
  }

  /** The words and gaps of "  GoLang  is  Awesome ": double spaces, one trailing space. */
  lemma GoLangSpacing()
    ensures WellSpaced(["GoLang", "is", "Awesome"], ["  ", "  ", "  ", " "])
  {
  }

  lemma GoLangLayout()
    ensures Layout(["GoLang", "is", "Awesome"], ["  ", "  ", "  ", " "]) == "  GoLang  is  Awesome "
  {
    assert Layout(["Awesome"], ["  ", " "]) == "  Awesome ";
    assert Layout(["is", "Awesome"], ["  ", "  ", " "]) == "  is  Awesome ";
  }

  /** The first non-blank case of TestCleanInput. */
  lemma CleanInputTestHelloWorld()
    ensures CleanInput(" hello world ") == ["hello", "world"]
  {
    HelloWorldSpacing();
    HelloWorldLayout();
    CleanInputLayout(["hello", "world"], [" ", " ", " "]);
    ToLowerOfLowerCase("hello");
    ToLowerOfLowerCase("world");
  }

  /** The second non-blank case of TestCleanInput: mixed case and double spaces. */
  lemma CleanInputTestGoLang()
    ensures CleanInput("  GoLang  is  Awesome ") == ["golang", "is", "awesome"]
  {
    GoLangSpacing();
    GoLangLayout();
    CleanInputLayout(["GoLang", "is", "Awesome"], ["  ", "  ", "  ", " "]);
    assert ToLower("GoLang") == "golang";
    ToLowerOfLowerCase("is");
    assert ToLower("Awesome") == "awesome";
  }
}
