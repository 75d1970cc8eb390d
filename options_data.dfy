/** `handleOptionsData` (run_graph.js:210-223): the reaction options grammar.
    The text is split on `,`; each piece is trimmed and split on `=`; the part
    before the first `=` is split on `+` into the trigger strings and the part
    between the first and the second `=` is the caption. */
module OptionsData {
  import opened JsValues
  import opened JsString

  /** One reaction option: the strings that select it and its caption
      (`undefined` when the piece holds no `=`). */
  datatype OptionGroup = OptionGroup(triggers: seq<string>, text: Option<string>)

  /** One comma-separated piece: trimmed, then cut at `=` into the trigger
      part and the caption. */
  function ParseGroup(piece: string): (g: OptionGroup)
    ensures |g.triggers| >= 1
  {
    ParseTrimmed(Trim(piece))
  }

  /** The group of an already trimmed piece `t`: the pieces of `t` cut at
      `=`; the first is cut at `+` into the triggers, the second is the caption. */
  function ParseTrimmed(t: string): (g: OptionGroup)
    ensures |g.triggers| >= 1
  {
    var halves := Split(t, '=');
    OptionGroup(Split(halves[0], '+'), if |halves| > 1 then Some(halves[1]) else None)
  }

  /** No trigger holds `+` and the caption holds no `=`. */
  lemma GroupFieldsFree(piece: string)
    ensures var g := ParseGroup(piece);
      && (forall i :: 0 <= i < |g.triggers| ==> '+' !in g.triggers[i])
      && (g.text.Some? ==> '=' !in g.text.value)
  {
    var halves := Split(Trim(piece), '=');
    SplitPiecesFree(Trim(piece), '=');
    SplitPiecesFree(halves[0], '+');
  }

  /** The shape of a well-formed piece, `a+b=caption` once trimmed. */
  lemma ParseGroupOfShape(piece: string, a: string, b: string, caption: string)
    requires Trim(piece) == a + ['+'] + b + ['='] + caption
    requires '+' !in a && '+' !in b && '=' !in a && '=' !in b && '=' !in caption
    ensures ParseGroup(piece) == OptionGroup([a, b], Some(caption))
  {
    var head := a + ['+'] + b;
    assert '=' !in head;
    assert Trim(piece) == head + ['='] + caption;
    SplitTwo(head, caption, '=');
    SplitTwo(a, b, '+');
  }

  /** A piece `a+b=caption` with whitespace only around it. */
  lemma ParseGroupOfPadded(piece: string, pre: string, a: string, b: string, caption: string, post: string)
    requires piece == pre + (a + ['+'] + b + ['='] + caption) + post
    requires forall i :: 0 <= i < |pre| ==> IsWhitespace(pre[i])
    requires forall i :: 0 <= i < |post| ==> IsWhitespace(post[i])
    requires a != [] && !IsWhitespace(a[0]) && caption != [] && !IsWhitespace(caption[|caption| - 1])
    requires '+' !in a && '+' !in b && '=' !in a && '=' !in b && '=' !in caption
    ensures ParseGroup(piece) == OptionGroup([a, b], Some(caption))
  {
    var body := a + ['+'] + b + ['='] + caption;
    assert body[0] == a[0] && body[|body| - 1] == caption[|caption| - 1];
    TrimPadded(pre, body, post);
    ParseGroupOfShape(piece, a, b, caption);
  }

  /** `handleOptionsData(optionsData)`: one group per comma-separated piece,
      in order. */
  function HandleOptionsData(data: string): (r: seq<OptionGroup>)
    ensures |r| == Count(data, ',') + 1
    ensures forall i :: 0 <= i < |r| ==> r[i] == ParseGroup(Split(data, ',')[i])
  {
    var pieces := Split(data, ',');
    seq(|pieces|, i requires 0 <= i < |pieces| => ParseGroup(pieces[i]))
  }

  /** The triggers, joined back with `+`, are the trimmed piece up to (not
      including) its first `=`. */
  lemma TriggersAreTheHead(piece: string)
    ensures var t := Trim(piece);
      var head := Join(ParseGroup(piece).triggers, '+');
      && |head| <= |t|
      && t[..|head|] == head
      && '=' !in head
      && (|head| == |t| || t[|head|] == '=')
  {
    var t := Trim(piece);
    var halves := Split(t, '=');
    JoinSplit(halves[0], '+');
    SplitFirstPiece(t, '=');
    SplitPiecesFree(t, '=');
  }

  /** The caption of an already trimmed piece. */
  lemma SecondFieldOf(t: string)
    ensures var g := ParseTrimmed(t);
      var head := Join(g.triggers, '+');
      && (g.text.None? <==> '=' !in t)
      && (g.text.Some? ==>
            var start := |head| + 1;
            && start + |g.text.value| <= |t|
            && t[start..start + |g.text.value|] == g.text.value
            && (start + |g.text.value| == |t| || t[start + |g.text.value|] == '='))
  {
    var halves := Split(t, '=');
    if '=' in t {
      SplitSecondPiece(t, '=');
      JoinSplit(halves[0], '+');
      assert |Join(Split(halves[0], '+'), '+')| == |halves[0]|;
    } else {
      SplitWithoutSeparator(t, '=');
    }
  }

  /** The caption is absent exactly when the trimmed piece holds no `=`; when
      present it is the text after the first `=` up to the second `=` or the end. */
  lemma TextIsTheSecondField(piece: string)
    ensures var t := Trim(piece);
      var g := ParseGroup(piece);
      var head := Join(g.triggers, '+');
      && (g.text.None? <==> '=' !in t)
      && (g.text.Some? ==>
            var start := |head| + 1;
            && start + |g.text.value| <= |t|
            && t[start..start + |g.text.value|] == g.text.value
            && (start + |g.text.value| == |t| || t[start + |g.text.value|] == '='))
  {
    var t := Trim(piece);
    assert ParseGroup(piece) == ParseTrimmed(t);
    SecondFieldOf(t);
  }

  /** Text holding the separator exactly once splits into the two sides. */
  lemma SplitTwo(a: string, b: string, sep: char)
    requires sep !in a && sep !in b
    ensures Split(a + [sep] + b, sep) == [a, b]
  {
    SplitAtFirst(a, b, sep);
    SplitWithoutSeparator(b, sep);
  }

  /** Options text with two comma-separated pieces gives their two groups. */
  lemma TwoPieces(data: string, first: string, second: string)
    requires data == first + [','] + second && ',' !in first && ',' !in second
    ensures HandleOptionsData(data) == [ParseGroup(first), ParseGroup(second)]
  {
    SplitTwo(first, second, ',');
  }

  lemma AgreeGroup(piece: string)
    requires piece == "a+A=Agree"
    ensures ParseGroup(piece) == OptionGroup(["a", "A"], Some("Agree"))
  {
    TrimKeepsTrimmed(piece);
    assert piece == "a" + ['+'] + "A" + ['='] + "Agree";
    ParseGroupOfShape(piece, "a", "A", "Agree");
  }

  lemma BlockGroup(piece: string)
    requires piece == " b+B=Block"
    ensures ParseGroup(piece) == OptionGroup(["b", "B"], Some("Block"))
  {
    assert piece == " " + ("b" + ['+'] + "B" + ['='] + "Block") + "";
    ParseGroupOfPadded(piece, " ", "b", "B", "Block", "");
  }

  /** The documented example: `"a+A=Agree, b+B=Block"`. */
  lemma DocumentedExample(data: string)
    requires data == "a+A=Agree, b+B=Block"
    ensures HandleOptionsData(data)
      == [OptionGroup(["a", "A"], Some("Agree")), OptionGroup(["b", "B"], Some("Block"))]
  {
    var first, second := "a+A=Agree", " b+B=Block";
    assert data == first + [','] + second;
    TwoPieces(data, first, second);
    AgreeGroup(first);
    BlockGroup(second);
  }

  /** Trimming applies to the whole piece only: spaces around `+` and `=` stay. */
  lemma NoInnerTrimming(piece: string)
    requires piece == " a + b = x "
    ensures ParseGroup(piece) == OptionGroup(["a ", " b "], Some(" x"))
  {
    assert piece == " " + ("a " + ['+'] + " b " + ['='] + " x") + " ";
    ParseGroupOfPadded(piece, " ", "a ", " b ", " x", " ");
  }
}
