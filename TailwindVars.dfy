/** The theme hook: the CSS variables of the dark theme turned into
    colour strings and font sizes, plus the legacy colour names. */
module TailwindVars {
  import opened Wrappers
  import opened Strings

  /** The dark theme's variables, in declaration order. */
  const Dark: seq<(string, string)> := [
    ("--background", "5 5 15"), ("--foreground", "243 244 246"),
    ("--primary", "6 182 212"), ("--primaryForeground", "255 255 255"),
    ("--secondary", "139 92 246"), ("--secondaryForeground", "255 255 255"),
    ("--muted", "20 20 40"), ("--mutedForeground", "156 163 175"),
    ("--accent", "236 72 153"), ("--accentForeground", "255 255 255"),
    ("--card", "15 15 35"), ("--cardForeground", "243 244 246"),
    ("--border", "30 30 60"), ("--input", "25 25 50"), ("--ring", "6 182 212"),
    ("--success", "94 222 128"), ("--warning", "251 191 36"), ("--error", "248 113 113"),
    ("--neutral50", "31 31 31"), ("--neutral100", "31 31 31"), ("--neutral200", "75 85 99"),
    ("--neutral300", "92 101 114"), ("--neutral400", "107 114 128"), ("--neutral500", "156 163 175"),
    ("--neutral600", "186 193 202"), ("--neutral700", "209 213 219"), ("--neutral800", "228 232 237"),
    ("--neutral900", "243 244 246"), ("--neutral950", "255 255 255"),
    ("--fontSizeXXS", "9px"), ("--fontSizeXS", "12px"), ("--fontSizeSM", "14px"),
    ("--fontSizeMD", "16px"), ("--fontSizeLG", "18px"), ("--fontSizeXL", "20px")
  ]

  /** `key.replace('--', '')`: the first "--" removed. */
  function NewKey(key: string): (k: string)
    ensures "--" <= key ==> k == key[2..]
    ensures IndexOf(key, "--").None? ==> k == key
  {
    assert "--" <= key ==> OccursAt(key, "--", 0);
    ReplaceFirst(key, "--", "")
  }

  // ---------------------------------------------------------------
  // Splitting on white space and joining
  // ---------------------------------------------------------------

  /** The index of the first white-space character, or |s|. */
  function FirstSpace(s: string, from: nat): (i: nat)
    requires from <= |s|
    ensures from <= i <= |s|
    ensures forall k :: from <= k < i ==> !IsSpace(s[k])
    ensures i < |s| ==> IsSpace(s[i])
    decreases |s| - from
  {
    if from == |s| || IsSpace(s[from]) then from else FirstSpace(s, from + 1)
  }

  /** The end of the white-space run starting at `from`. */
  function SkipSpaces(s: string, from: nat): (j: nat)
    requires from <= |s|
    ensures from <= j <= |s|
    ensures forall k :: from <= k < j ==> IsSpace(s[k])
    ensures j < |s| ==> !IsSpace(s[j])
    decreases |s| - from
  {
    if from < |s| && IsSpace(s[from]) then SkipSpaces(s, from + 1) else from
  }

  /** `s.split(/\s+/)` for a string with no leading or trailing white
      space: the runs of other characters. */
  function SplitWs(s: string): (parts: seq<string>)
    ensures |parts| >= 1
    ensures forall p :: p in parts ==> forall k :: 0 <= k < |p| ==> !IsSpace(p[k])
    decreases |s|
  {
    var i := FirstSpace(s, 0);
    if i == |s| then [s]
    else
      var j := SkipSpaces(s, i);
      [s[..i]] + SplitWs(s[j..])
  }

  /** A string without white space is one part. */
  lemma SplitSpaceless(s: string)
    requires forall k :: 0 <= k < |s| ==> !IsSpace(s[k])
    ensures SplitWs(s) == [s]
  {
    assert FirstSpace(s, 0) == |s|;
  }

  /** The split happens at each white-space run: a word, the run after it
      and the rest give the word followed by the parts of the rest. */
  lemma SplitWordGap(word: string, gap: string, rest: string)
    requires forall k :: 0 <= k < |word| ==> !IsSpace(word[k])
    requires gap != [] && forall k :: 0 <= k < |gap| ==> IsSpace(gap[k])
    requires rest == [] || !IsSpace(rest[0])
    ensures SplitWs(word + gap + rest) == [word] + SplitWs(rest)
  {
    var s := word + gap + rest;
    assert s[|word|] == gap[0];
    assert forall k :: 0 <= k < |word| ==> s[k] == word[k];
    var i := FirstSpace(s, 0);
    assert i == |word|;
    assert forall k :: |word| <= k < |word| + |gap| ==> s[k] == gap[k - |word|];
    assert |word| + |gap| < |s| ==> s[|word| + |gap|] == rest[0];
    var j := SkipSpaces(s, i);
    assert j == |word| + |gap|;
    assert s[..i] == word;
    assert s[j..] == rest;
  }

  /** `parts.join(sep)`. */
  function JoinWith(parts: seq<string>, sep: string): (s: string)
  {
    if parts == [] then "" else if |parts| == 1 then parts[0] else parts[0] + sep + JoinWith(parts[1..], sep)
  }

  /** `s` without its white space. */
  function NonSpace(s: string): string
  {
    if s == [] then [] else (if IsSpace(s[0]) then [] else [s[0]]) + NonSpace(s[1..])
  }

  lemma {:induction false} NonSpaceAppend(a: string, b: string)
    ensures NonSpace(a + b) == NonSpace(a) + NonSpace(b)
  {
    if a != [] {
      assert (a + b)[1..] == a[1..] + b;
      NonSpaceAppend(a[1..], b);
    } else {
      assert a + b == b;
    }
  }

  lemma {:induction false} NonSpaceOfSpaceless(s: string)
    requires forall k :: 0 <= k < |s| ==> !IsSpace(s[k])
    ensures NonSpace(s) == s
  {
    if s != [] {
      NonSpaceOfSpaceless(s[1..]);
    }
  }

  lemma {:induction false} NonSpaceOfSpaces(s: string)
    requires forall k :: 0 <= k < |s| ==> IsSpace(s[k])
    ensures NonSpace(s) == []
  {
    if s != [] {
      NonSpaceOfSpaces(s[1..]);
    }
  }

  function Concat(parts: seq<string>): string
  {
    if parts == [] then "" else parts[0] + Concat(parts[1..])
  }

  /** A word followed by white space contributes just the word. */
  lemma WordAndGap(word: string, gap: string)
    requires forall k :: 0 <= k < |word| ==> !IsSpace(word[k])
    requires forall k :: 0 <= k < |gap| ==> IsSpace(gap[k])
    ensures NonSpace(word + gap) == word
  {
    NonSpaceOfSpaceless(word);
    NonSpaceOfSpaces(gap);
    NonSpaceAppend(word, gap);
  }

  lemma SpacesSlice(s: string, i: nat, j: nat)
    requires i <= j <= |s|
    requires forall k :: i <= k < j ==> IsSpace(s[k])
    ensures forall k :: 0 <= k < |s[i..j]| ==> IsSpace(s[i..j][k])
  {
    forall k | 0 <= k < |s[i..j]|
      ensures IsSpace(s[i..j][k])
    {
      assert s[i..j][k] == s[i + k];
    }
  }

  /** One word, the white space after it and the rest. */
  lemma WordThenGap(word: string, gap: string, tail: string)
    requires forall k :: 0 <= k < |word| ==> !IsSpace(word[k])
    requires forall k :: 0 <= k < |gap| ==> IsSpace(gap[k])
    ensures NonSpace(word + gap + tail) == word + NonSpace(tail)
  {
    WordAndGap(word, gap);
    NonSpaceAppend(word + gap, tail);
  }

  /** Splitting loses exactly the white space: the parts put back together
      are the string's other characters, in order. */
  lemma {:induction false} SplitKeepsCharacters(s: string)
    ensures Concat(SplitWs(s)) == NonSpace(s)
    decreases |s|
  {
    var i := FirstSpace(s, 0);
    if i == |s| {
      NonSpaceOfSpaceless(s);
    } else {
      var j := SkipSpaces(s, i);
      var word, gap, tail := s[..i], s[i..j], s[j..];
      SpacesSlice(s, i, j);
      assert forall k :: 0 <= k < |word| ==> !IsSpace(word[k]);
      assert s == word + gap + tail;
      calc {
        Concat(SplitWs(s));
        Concat([word] + SplitWs(tail));
        word + Concat(SplitWs(tail));
        { SplitKeepsCharacters(tail); }
        word + NonSpace(tail);
        { WordThenGap(word, gap, tail); }
        NonSpace(word + gap + tail);
      }
    }
  }

  // ---------------------------------------------------------------
  // Colours and font sizes of one variable
  // ---------------------------------------------------------------

  /** A spaced value without "px" is an RGB triple: "rgb(" + its parts
      joined by "," + ")". Anything else is kept as it is. */
  function ColorValue(val: string): (color: string)
    ensures !(Contains(val, " ") && !Contains(val, "px")) ==> color == val
    ensures Contains(val, " ") && !Contains(val, "px") ==>
      "rgb(" <= color && color[|color| - 1] == ')' && color[4..|color| - 1] == JoinWith(SplitWs(Trim(val)), ",")
  {
    if Contains(val, " ") && !Contains(val, "px") then "rgb(" + JoinWith(SplitWs(Trim(val)), ",") + ")"
    else val
  }

  /** Three words separated by single spaces split into those words. */
  lemma SplitTriple(r: string, g: string, b: string)
    requires forall k :: 0 <= k < |r| ==> !IsSpace(r[k])
    requires forall k :: 0 <= k < |g| ==> !IsSpace(g[k])
    requires forall k :: 0 <= k < |b| ==> !IsSpace(b[k])
    requires g != []
    ensures SplitWs(r + " " + g + " " + b) == [r, g, b]
  {
    var tail := g + " " + b;
    assert r + " " + g + " " + b == r + " " + tail;
    assert tail[0] == g[0];
    SplitWordGap(r, " ", tail);
    assert b == [] || !IsSpace(b[0]);
    SplitWordGap(g, " ", b);
    SplitSpaceless(b);
    assert SplitWs(tail) == [g, b];
  }

  /** Digit runs joined by spaces hold neither "px" nor white space at
      either end. */
  lemma TripleShape(r: string, g: string, b: string)
    requires AllDigits(r) && AllDigits(g) && AllDigits(b)
    requires r != [] && b != []
    ensures var v := r + " " + g + " " + b;
      Contains(v, " ") && !Contains(v, "px") && Trim(v) == v
  {
    var v := r + " " + g + " " + b;
    assert OccursAt(v, " ", |r|);
    assert 'p' !in r && 'p' !in g && 'p' !in b;
    assert 'p' !in v;
    NoPx(v);
    assert v[0] == r[0] && v[|v| - 1] == b[|b| - 1];
    TrimOfTrimmed(v);
  }

  /** The colour of a spaced value without "px". */
  lemma ColorOfSpaced(v: string)
    requires Contains(v, " ") && !Contains(v, "px")
    ensures ColorValue(v) == "rgb(" + JoinWith(SplitWs(Trim(v)), ",") + ")"
  {
  }

  lemma DigitsNoSpace(d: string)
    requires AllDigits(d)
    ensures forall k :: 0 <= k < |d| ==> !IsSpace(d[k])
  {
  }

  lemma JoinThree(r: string, g: string, b: string, sep: string)
    ensures JoinWith([r, g, b], sep) == r + sep + g + sep + b
  {
    assert [r, g, b][1..] == [g, b];
    assert [g, b][1..] == [b];
    assert JoinWith([g, b], sep) == g + sep + b;
  }

  /** An RGB triple "R G B" of digit runs becomes "rgb(R,G,B)". */
  lemma ColorOfTriple(r: string, g: string, b: string)
    requires AllDigits(r) && AllDigits(g) && AllDigits(b)
    requires r != [] && g != [] && b != []
    ensures ColorValue(r + " " + g + " " + b) == "rgb(" + (r + "," + g + "," + b) + ")"
  {
    var v := r + " " + g + " " + b;
    DigitsNoSpace(r);
    DigitsNoSpace(g);
    DigitsNoSpace(b);
    SplitTriple(r, g, b);
    JoinThree(r, g, b, ",");
    TripleShape(r, g, b);
    ColorOfSpaced(v);
  }

  /** The theme's background "5 5 15" becomes "rgb(5,5,15)". */
  lemma BackgroundColor()
    ensures ColorValue(Dark[0].1) == "rgb(5,5,15)"
  {
    var r: string, g: string, b: string := "5", "5", "15";
    assert r + " " + g + " " + b == "5 5 15" by {
      assert |r + " " + g + " " + b| == 6;
    }
    assert "rgb(" + (r + "," + g + "," + b) + ")" == "rgb(5,5,15)" by {
      assert |"rgb(" + (r + "," + g + "," + b) + ")"| == 11;
    }
    assert Dark[0].1 == "5 5 15";
    assert AllDigits(r) && AllDigits(g) && AllDigits(b);
    ColorOfTriple(r, g, b);
  }

  /** The digits at the start of `s`. */
  function LeadingDigits(s: string): (d: string)
    ensures d <= s && AllDigits(d)
    ensures |d| < |s| ==> !IsDigit(s[|d|])
  {
    if s != [] && IsDigit(s[0]) then [s[0]] + LeadingDigits(s[1..]) else []
  }

  /** `parseInt(s, 10)`: optional white space and sign, then the leading
      digits; None stands for NaN when there are none. */
  function ParseInt(s: string): (n: Option<int>)
    ensures AllDigits(s) && s != [] ==> n == Some(DigitsValue(s))
  {
    var t := TrimStart(s);
    var negative := t != [] && t[0] == '-';
    var body := if t != [] && (t[0] == '-' || t[0] == '+') then t[1..] else t;
    var digits := LeadingDigits(body);
    if digits == [] then None
    else
      assert AllDigits(s) && s != [] ==> t == s && body == s && digits == s;
      var magnitude: int := DigitsValue(digits);
      Some(if negative then -magnitude else magnitude)
  }

  /** The leading digits of digits followed by a non-digit are those digits. */
  lemma {:induction false} LeadingDigitsOf(d: string, rest: string)
    requires AllDigits(d)
    requires rest == [] || !IsDigit(rest[0])
    ensures LeadingDigits(d + rest) == d
  {
    if d != [] {
      assert (d + rest)[1..] == d[1..] + rest;
      LeadingDigitsOf(d[1..], rest);
    } else {
      assert d + rest == rest;
    }
  }

  /** `parseInt` skips white space before the text. */
  lemma ParseIntSkipsSpace(ws: string, t: string)
    requires forall k :: 0 <= k < |ws| ==> IsSpace(ws[k])
    requires t == [] || !IsSpace(t[0])
    ensures ParseInt(ws + t) == ParseInt(t)
  {
    TrimStartSkips(ws, t);
    assert TrimStart(t) == t;
  }

  /** An optional sign, digits and any other text after them. */
  lemma ParseIntSigned(sign: string, d: string, rest: string)
    requires sign == "" || sign == "+" || sign == "-"
    requires AllDigits(d) && d != []
    requires rest == [] || !IsDigit(rest[0])
    ensures ParseInt(sign + d + rest) == Some(if sign == "-" then -(DigitsValue(d) as int) else DigitsValue(d) as int)
  {
    var body := d + rest;
    assert sign + d + rest == sign + body;
    assert body[0] == d[0];
    LeadingDigitsOf(d, rest);
    if sign == "" {
      assert sign + body == body;
      ParseIntUnsigned(body, d);
    } else {
      ParseIntWithSign(sign[0], body, d);
      assert [sign[0]] == sign;
    }
  }

  lemma ParseIntUnsigned(body: string, d: string)
    requires AllDigits(d) && d != [] && body != [] && body[0] == d[0]
    requires LeadingDigits(body) == d
    ensures ParseInt(body) == Some(DigitsValue(d) as int)
  {
    assert TrimStart(body) == body;
  }

  lemma ParseIntWithSign(c: char, body: string, d: string)
    requires c == '+' || c == '-'
    requires AllDigits(d) && d != []
    requires LeadingDigits(body) == d
    ensures ParseInt([c] + body) == Some(if c == '-' then -(DigitsValue(d) as int) else DigitsValue(d) as int)
  {
    var t := [c] + body;
    assert TrimStart(t) == t;
    assert t[1..] == body;
  }

  /** `parseInt` skips leading white space, applies an optional sign and
      reads the digits that follow, ignoring any text after them. */
  lemma ParseIntReads(ws: string, sign: string, d: string, rest: string)
    requires forall k :: 0 <= k < |ws| ==> IsSpace(ws[k])
    requires sign == "" || sign == "+" || sign == "-"
    requires AllDigits(d) && d != []
    requires rest == [] || !IsDigit(rest[0])
    ensures ParseInt(ws + sign + d + rest) == Some(if sign == "-" then -(DigitsValue(d) as int) else DigitsValue(d) as int)
  {
    var t := sign + d + rest;
    assert ws + sign + d + rest == ws + t;
    assert t[0] == if sign == "" then d[0] else sign[0];
    ParseIntSkipsSpace(ws, t);
    ParseIntSigned(sign, d, rest);
  }

  /** With no digit after the white space and the optional sign,
      `parseInt` gives NaN. */
  lemma ParseIntNaN(ws: string, sign: string, rest: string)
    requires forall k :: 0 <= k < |ws| ==> IsSpace(ws[k])
    requires sign == "" || sign == "+" || sign == "-"
    requires rest == [] || !IsDigit(rest[0])
    requires sign == "" && rest != [] ==> !IsSpace(rest[0]) && rest[0] != '+' && rest[0] != '-'
    ensures ParseInt(ws + sign + rest) == None
  {
    var t := sign + rest;
    assert ws + sign + rest == ws + t;
    TrimStartSkips(ws, t);
    if sign != "" {
      assert t[1..] == rest;
    }
  }

  /** The font size a variable yields, if any: a "px" value gives the
      integer before "px", a spaced value the integer of its first
      space-separated component. */
  predicate HasFontSize(val: string)
  {
    Contains(val, "px") || Contains(val, " ")
  }

  function FontSizeOf(val: string): (size: Option<Option<int>>)
    ensures size.Some? <==> HasFontSize(val)
    ensures Contains(val, "px") ==> size == Some(ParseInt(ReplaceFirst(val, "px", "")))
    ensures !Contains(val, "px") && IndexOf(val, " ").Some? ==> size == Some(ParseInt(val[..IndexOf(val, " ").value]))
  {
    if Contains(val, "px") then Some(ParseInt(ReplaceFirst(val, "px", "")))
    else match IndexOf(val, " ")
      case Some(i) => Some(ParseInt(val[..i]))
      case None => None
  }

  /** "16px" and its kind give the number written before "px". */
  lemma PixelSize(d: string)
    requires AllDigits(d) && d != []
    ensures FontSizeOf(d + "px") == Some(Some(DigitsValue(d)))
  {
    var s := d + "px";
    assert OccursAt(s, "px", |d|);
    forall j | 0 <= j < |d|
      ensures !OccursAt(s, "px", j)
    {
      assert s[j] == d[j];
    }
    assert IndexOf(s, "px") == Some(|d|);
    assert s[..|d|] == d && s[|d| + 2..] == [];
    assert ReplaceFirst(s, "px", "") == d;
    assert ParseInt(d) == Some(DigitsValue(d));
  }

  /** A spaced value such as "5 5 15" gives the number before its first
      space, so every colour variable of the theme also gets a font size. */
  lemma SpacedSize(d: string, rest: string)
    requires AllDigits(d) && d != []
    requires !Contains(d + " " + rest, "px")
    ensures FontSizeOf(d + " " + rest) == Some(Some(DigitsValue(d)))
  {
    var s := d + " " + rest;
    assert OccursAt(s, " ", |d|);
    forall j | 0 <= j < |d|
      ensures !OccursAt(s, " ", j)
    {
      assert s[j..j + 1] == [d[j]];
    }
    assert IndexOf(s, " ") == Some(|d|);
    assert s[..|d|] == d;
    assert ParseInt(d) == Some(DigitsValue(d));
  }

  /** A value without the letter 'p' holds no "px". */
  lemma NoPx(s: string)
    requires 'p' !in s
    ensures !Contains(s, "px")
  {
    forall j | 0 <= j <= |s|
      ensures !OccursAt(s, "px", j)
    {
      if j + 2 <= |s| {
        assert s[j..j + 2][0] == s[j];
      }
    }
  }

  /** The theme's background, "5 5 15", has the font size 5. */
  lemma BackgroundSize()
    ensures FontSizeOf(Dark[0].1) == Some(Some(5))
  {
    var s: string := "5 5 15";
    assert Dark[0].1 == s;
    assert s == "5" + " " + "5 15";
    NoPx(s);
    SpacedSize("5", "5 15");
    assert DigitsValue("5") == 10 * DigitsValue("") + DigitValue('5');
  }

  // ---------------------------------------------------------------
  // The conversion loop
  // ---------------------------------------------------------------

  /** The colours after the first |theme| variables: a later key with the
      same new name overwrites an earlier one. */
  function ColorsOf(theme: seq<(string, string)>): (colors: map<string, string>)
    ensures colors.Keys == set i | 0 <= i < |theme| :: NewKey(theme[i].0)
  {
    if theme == [] then map[]
    else
      var init := theme[..|theme| - 1];
      var last := theme[|theme| - 1];
      assert forall i :: 0 <= i < |init| ==> init[i] == theme[i];
      ColorsOf(init)[NewKey(last.0) := ColorValue(last.1)]
  }

  function FontSizesOf(theme: seq<(string, string)>): (sizes: map<string, Option<int>>)
  {
    if theme == [] then map[]
    else
      var init := theme[..|theme| - 1];
      var last := theme[|theme| - 1];
      if HasFontSize(last.1) then FontSizesOf(init)[NewKey(last.0) := FontSizeOf(last.1).value]
      else FontSizesOf(init)
  }

  /** Every variable with "px" or a space gets a font size. */
  lemma {:induction false} FontSizeOfEach(theme: seq<(string, string)>, i: int)
    requires 0 <= i < |theme| && HasFontSize(theme[i].1)
    ensures NewKey(theme[i].0) in FontSizesOf(theme)
  {
    var init := theme[..|theme| - 1];
    if i < |theme| - 1 {
      assert init[i] == theme[i];
      FontSizeOfEach(init, i);
    }
  }

  /** Only those variables get one. */
  lemma {:induction false} FontSizeOnlyThose(theme: seq<(string, string)>, k: string)
    requires k in FontSizesOf(theme)
    ensures exists i :: 0 <= i < |theme| && HasFontSize(theme[i].1) && NewKey(theme[i].0) == k
  {
    var last := |theme| - 1;
    var init := theme[..last];
    if !(HasFontSize(theme[last].1) && NewKey(theme[last].0) == k) {
      FontSizeOnlyThose(init, k);
      var i :| 0 <= i < |init| && HasFontSize(init[i].1) && NewKey(init[i].0) == k;
      assert theme[i] == init[i];
    }
  }

  /** With distinct new names every variable's colour is found under its
      new name. */
  lemma {:induction false} ColorOfEachVariable(theme: seq<(string, string)>, i: int)
    requires 0 <= i < |theme|
    requires forall a, b :: 0 <= a < b < |theme| ==> NewKey(theme[a].0) != NewKey(theme[b].0)
    ensures ColorsOf(theme)[NewKey(theme[i].0)] == ColorValue(theme[i].1)
  {
    if i < |theme| - 1 {
      var init := theme[..|theme| - 1];
      assert init[i] == theme[i];
      ColorOfEachVariable(init, i);
    }
  }

  /** The loop over the theme's variables. */
  method Convert(theme: seq<(string, string)>) returns (colors: map<string, string>, fontSizes: map<string, Option<int>>)
    ensures colors == ColorsOf(theme) && fontSizes == FontSizesOf(theme)
  {
    colors := map[];
    fontSizes := map[];
    var i := 0;
    while i < |theme|
      invariant 0 <= i <= |theme|
      invariant colors == ColorsOf(theme[..i]) && fontSizes == FontSizesOf(theme[..i])
    {
      var (key, val) := theme[i];
      var newKey := NewKey(key);
      assert theme[..i + 1][..i] == theme[..i];
      colors := colors[newKey := ColorValue(val)];
      var size := FontSizeOf(val);
      if size.Some? {
        fontSizes := fontSizes[newKey := size.value];
      }
      i := i + 1;
    }
    assert theme[..i] == theme;
  }

  // ---------------------------------------------------------------
  // Legacy names and `withAlpha`
  // ---------------------------------------------------------------

  /** `!colors[key]`: absent or empty. */
  predicate Missing(colors: map<string, string>, key: string)
  {
    key !in colors || colors[key] == ""
  }

  /** `colors[key] || default`. */
  function ValueOr(colors: map<string, string>, key: string, default: string): string
  {
    if Missing(colors, key) then default else colors[key]
  }

  /** `if (!colors[key]) colors[key] = value`. */
  function SetIfMissing(colors: map<string, string>, key: string, value: string): map<string, string>
  {
    if Missing(colors, key) then colors[key := value] else colors
  }

  /** The legacy greys, each with the neutral of the same rank and the
      colour used when that neutral is missing too. */
  const Legacy: seq<(string, string, string)> := [
    ("grey0", "neutral50", "rgb(255,255,255)"),
    ("grey1", "neutral100", "rgb(243,244,246)"),
    ("grey2", "neutral200", "rgb(209,213,219)"),
    ("grey3", "neutral300", "rgb(186,190,197)"),
    ("grey4", "neutral400", "rgb(156,163,175)"),
    ("grey5", "neutral500", "rgb(107,114,128)")
  ]

  /** What the grey block relies on: the greys are distinct, no grey is
      a neutral, and every fallback colour is non-empty. */
  predicate GreyTable(table: seq<(string, string, string)>)
  {
    && (forall i, j :: 0 <= i < j < |table| ==> table[i].0 != table[j].0)
    && (forall i, j :: 0 <= i < |table| && 0 <= j < |table| ==> table[i].0 != table[j].1)
    && (forall i :: 0 <= i < |table| ==> table[i].2 != "")
  }

  lemma LegacyIsGreyTable()
    ensures GreyTable(Legacy)
    ensures forall i :: 0 <= i < |Legacy| ==>
      && Legacy[i].0 != "white" && Legacy[i].0 != "black"
      && Legacy[i].1 != "white" && Legacy[i].1 != "black"
  {
  }

  /** Setting white and black leaves every other name as it was. */
  lemma BaseLeavesOthers(colors: map<string, string>, k: string, d: string)
    requires k != "white" && k != "black"
    ensures ValueOr(SetIfMissing(SetIfMissing(colors, "white", "rgb(255,255,255)"), "black", "rgb(0,0,0)"), k, d)
         == ValueOr(colors, k, d)
  {
  }

  /** The greys, in table order, each set only when missing. */
  function ApplyGreys(c: map<string, string>, table: seq<(string, string, string)>): map<string, string>
    decreases |table|
  {
    if table == [] then c
    else ApplyGreys(SetIfMissing(c, table[0].0, ValueOr(c, table[0].1, table[0].2)), table[1..])
  }

  /** The legacy block: white and black, then the greys. */
  function WithLegacy(colors: map<string, string>): map<string, string>
  {
    var c := SetIfMissing(colors, "white", "rgb(255,255,255)");
    var c := SetIfMissing(c, "black", "rgb(0,0,0)");
    ApplyGreys(c, Legacy)
  }

  /** A colour that is set survives the grey block. */
  lemma {:induction false} GreysKeepSetColors(c: map<string, string>, table: seq<(string, string, string)>, k: string)
    requires k in c && !Missing(c, k)
    ensures k in ApplyGreys(c, table) && ApplyGreys(c, table)[k] == c[k]
    decreases |table|
  {
    if table != [] {
      GreysKeepSetColors(SetIfMissing(c, table[0].0, ValueOr(c, table[0].1, table[0].2)), table[1..], k);
    }
  }

  /** A name that is not a grey of the table is not touched. */
  lemma {:induction false} GreysLeaveOthers(c: map<string, string>, table: seq<(string, string, string)>, k: string)
    requires forall i :: 0 <= i < |table| ==> table[i].0 != k
    ensures k in ApplyGreys(c, table) <==> k in c
    ensures k in c ==> ApplyGreys(c, table)[k] == c[k]
    decreases |table|
  {
    if table != [] {
      assert table[0].0 != k;
      GreysLeaveOthers(SetIfMissing(c, table[0].0, ValueOr(c, table[0].1, table[0].2)), table[1..], k);
    }
  }

  /** The i-th grey ends up as its old value, or else its neutral, or else
      its fallback colour. */
  lemma {:induction false} GreysSetEach(c: map<string, string>, table: seq<(string, string, string)>, i: int)
    requires GreyTable(table) && 0 <= i < |table|
    ensures table[i].0 in ApplyGreys(c, table)
    ensures ApplyGreys(c, table)[table[i].0] == ValueOr(c, table[i].0, ValueOr(c, table[i].1, table[i].2))
    decreases |table|
  {
    var c1 := SetIfMissing(c, table[0].0, ValueOr(c, table[0].1, table[0].2));
    if i == 0 {
      GreysKeepSetColors(c1, table[1..], table[0].0);
    } else {
      assert table[1..][i - 1] == table[i];
      assert table[i].0 != table[0].0 && table[i].1 != table[0].0;
      GreysSetEach(c1, table[1..], i - 1);
    }
  }

  /** The only names the grey block adds are the table's greys. */
  lemma {:induction false} GreysAddOnlyGreys(c: map<string, string>, table: seq<(string, string, string)>, k: string)
    requires k in ApplyGreys(c, table) && k !in c
    ensures exists i :: 0 <= i < |table| && table[i].0 == k
    decreases |table|
  {
    if table != [] && k != table[0].0 {
      GreysAddOnlyGreys(SetIfMissing(c, table[0].0, ValueOr(c, table[0].1, table[0].2)), table[1..], k);
      var i :| 0 <= i < |table[1..]| && table[1..][i].0 == k;
      assert table[i + 1].0 == k;
    } else if table == [] {
    } else {
      assert table[0].0 == k;
    }
  }

  /** A colour that is already set is never replaced. */
  lemma LegacyKeepsSetColors(colors: map<string, string>, k: string)
    requires k in colors && !Missing(colors, k)
    ensures k in WithLegacy(colors) && WithLegacy(colors)[k] == colors[k]
  {
    var c := SetIfMissing(SetIfMissing(colors, "white", "rgb(255,255,255)"), "black", "rgb(0,0,0)");
    GreysKeepSetColors(c, Legacy, k);
  }

  /** White and black are always defined afterwards, and a missing one
      gets its fixed colour. */
  lemma LegacyWhiteBlack(colors: map<string, string>)
    ensures "white" in WithLegacy(colors) && "black" in WithLegacy(colors)
    ensures WithLegacy(colors)["white"] == ValueOr(colors, "white", "rgb(255,255,255)")
    ensures WithLegacy(colors)["black"] == ValueOr(colors, "black", "rgb(0,0,0)")
  {
    var c := SetIfMissing(SetIfMissing(colors, "white", "rgb(255,255,255)"), "black", "rgb(0,0,0)");
    GreysKeepSetColors(c, Legacy, "white");
    GreysKeepSetColors(c, Legacy, "black");
  }

  /** Each grey is its old value, or else the neutral of the same rank, or
      else its fixed colour. */
  lemma LegacyGrey(colors: map<string, string>, i: int)
    requires 0 <= i < |Legacy|
    ensures Legacy[i].0 in WithLegacy(colors)
    ensures WithLegacy(colors)[Legacy[i].0] == ValueOr(colors, Legacy[i].0, ValueOr(colors, Legacy[i].1, Legacy[i].2))
  {
    var c := SetIfMissing(SetIfMissing(colors, "white", "rgb(255,255,255)"), "black", "rgb(0,0,0)");
    LegacyIsGreyTable();
    GreysSetEach(c, Legacy, i);
    BaseLeavesOthers(colors, Legacy[i].1, Legacy[i].2);
    BaseLeavesOthers(colors, Legacy[i].0, ValueOr(colors, Legacy[i].1, Legacy[i].2));
  }

  /** No name outside white, black and the six greys is added. */
  lemma LegacyAddsOnlyLegacyNames(colors: map<string, string>, k: string)
    requires k in WithLegacy(colors) && k !in colors
    ensures k == "white" || k == "black" || exists i :: 0 <= i < |Legacy| && Legacy[i].0 == k
  {
    var c := SetIfMissing(SetIfMissing(colors, "white", "rgb(255,255,255)"), "black", "rgb(0,0,0)");
    if k != "white" && k != "black" {
      GreysAddOnlyGreys(c, Legacy, k);
    }
  }

  /** The hook's colours and font sizes for a theme (the app always
      passes `Dark`). */
  method UseTailwindVars(theme: seq<(string, string)>) returns (colors: map<string, string>, fontSizes: map<string, Option<int>>)
    ensures colors == WithLegacy(ColorsOf(theme)) && fontSizes == FontSizesOf(theme)
  {
    colors, fontSizes := Convert(theme);
    colors := WithLegacy(colors);
  }

  /** `withAlpha(rgb, alpha)`, with the alpha as the text it renders to.
      What it makes of an `rgb(...)` colour is `RgbGainsAlpha`. */
  function WithAlpha(rgb: string, alpha: string): (color: string)
    ensures rgb == "" ==> color == "rgba(0,0,0," + alpha + ")"
    ensures rgb != "" && (StartsWith(rgb, "rgba") || !StartsWith(rgb, "rgb")) ==> color == rgb
  {
    if rgb == "" then "rgba(0,0,0," + alpha + ")"
    else if StartsWith(rgb, "rgba") then rgb
    else if StartsWith(rgb, "rgb") then ReplaceFirst(ReplaceFirst(rgb, "rgb", "rgba"), ")", ", " + alpha + ")")
    else rgb
  }

  lemma RgbPrefixReplaced(inner: string)
    ensures ReplaceFirst("rgb(" + inner + ")", "rgb", "rgba") == "rgba(" + inner + ")"
  {
    var s := "rgb(" + inner + ")";
    assert s[..3] == "rgb";
    assert OccursAt(s, "rgb", 0);
    assert IndexOf(s, "rgb") == Some(0);
    assert s[3..] == "(" + inner + ")";
  }

  lemma {:induction false} FirstCloseParen(inner: string, alpha: string)
    requires ')' !in inner
    ensures ReplaceFirst("rgba(" + inner + ")", ")", ", " + alpha + ")") == "rgba(" + inner + ", " + alpha + ")"
  {
    var t := "rgba(" + inner + ")";
    var last := |t| - 1;
    assert t[last..last + 1] == ")";
    assert OccursAt(t, ")", last);
    forall j | 0 <= j < last
      ensures !OccursAt(t, ")", j)
    {
      assert t[j..j + 1] == [t[j]];
      if 5 <= j {
        assert t[j] == inner[j - 5];
      } else {
        assert t[j] == "rgba("[j];
      }
    }
    assert IndexOf(t, ")") == Some(last);
    assert t[..last] == "rgba(" + inner;
  }

  /** An `rgb(...)` colour gains the alpha as a fourth component. */
  lemma RgbGainsAlpha(inner: string, alpha: string)
    requires ')' !in inner
    ensures WithAlpha("rgb(" + inner + ")", alpha) == "rgba(" + inner + ", " + alpha + ")"
  {
    var s := "rgb(" + inner + ")";
    assert s[..3] == "rgb" && s[3] == '(';
    assert StartsWith(s, "rgb") && !StartsWith(s, "rgba");
    RgbPrefixReplaced(inner);
    FirstCloseParen(inner, alpha);
  }
}
