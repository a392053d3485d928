/** The padding helpers `left_pad` and `right_pad` that templates call.
    They are `str(value).rjust(width, char)` and
    `str(value).ljust(width, char)`. */
module HandlebarsHelpers {
  import opened Wrappers
  import opened PyJson

  /** The defaults of both helpers' `width` and `char` arguments. */
  const DefaultWidth: Json := JNum(5)
  const DefaultFill: Json := JStr(" ")

  /** `n` copies of `c` (none for `n <= 0`). */
  function Repeat(c: char, n: int): (r: string)
    ensures |r| == if n < 0 then 0 else n
    ensures forall i :: 0 <= i < |r| ==> r[i] == c
    decreases n
  {
    if n <= 0 then [] else [c] + Repeat(c, n - 1)
  }

  /** The width argument: an `int`, with `bool` counting as one. */
  function WidthOf(width: Json): (r: Result<int>)
    ensures r.Ok? <==> NumOf(width).Some?
    ensures r.Ok? ==> r.value == NumOf(width).value
    ensures r.Err? ==> r.error == TypeError
  {
    match NumOf(width)
    case Some(n) => Ok(n)
    case None => Err(TypeError)
  }

  /** The fill argument: exactly one character, otherwise TypeError. */
  function FillOf(fill: Json): (r: Result<char>)
    ensures r.Ok? <==> fill.JStr? && |fill.s| == 1
    ensures r.Ok? ==> fill.s == [r.value]
    ensures r.Err? ==> r.error == TypeError
  {
    if fill.JStr? && |fill.s| == 1 then Ok(fill.s[0]) else Err(TypeError)
  }

  function Max(a: int, b: int): int { if a < b then b else a }

  /** `left_pad(context, value, width, char)`: the text of `value` is
      kept whole at the end and preceded by copies of `char` until it is
      `width` long; text already that long comes back unchanged. */
  function LeftPad(value: Json, width: Json, fill: Json): (r: Result<string>)
    ensures r.Ok? <==> Str(value).Ok? && WidthOf(width).Ok? && FillOf(fill).Ok?
    ensures r.Ok? ==>
      var s, w, c := Str(value).value, WidthOf(width).value, FillOf(fill).value;
      && |r.value| == Max(|s|, w)
      && r.value[|r.value| - |s|..] == s
      && (forall i :: 0 <= i < |r.value| - |s| ==> r.value[i] == c)
      && (|s| >= w ==> r.value == s)
  {
    var s :- Str(value);
    var w :- WidthOf(width);
    var c :- FillOf(fill);
    Ok(Repeat(c, w - |s|) + s)
  }

  /** `right_pad(context, value, width, char)`: the text of `value` is
      kept whole at the start and followed by copies of `char` until it is
      `width` long; text already that long comes back unchanged. */
  function RightPad(value: Json, width: Json, fill: Json): (r: Result<string>)
    ensures r.Ok? <==> Str(value).Ok? && WidthOf(width).Ok? && FillOf(fill).Ok?
    ensures r.Ok? ==>
      var s, w, c := Str(value).value, WidthOf(width).value, FillOf(fill).value;
      && |r.value| == Max(|s|, w)
      && r.value[..|s|] == s
      && (forall i :: |s| <= i < |r.value| ==> r.value[i] == c)
      && (|s| >= w ==> r.value == s)
  {
    var s :- Str(value);
    var w :- WidthOf(width);
    var c :- FillOf(fill);
    Ok(s + Repeat(c, w - |s|))
  }

  /** An empty value pads to exactly `width` copies of `char` on either
      side, so both helpers agree on it. */
  lemma EmptyValueIsAllFill(width: int, c: char)
    requires width >= 0
    ensures LeftPad(JStr(""), JNum(width), JStr([c])) == Ok(Repeat(c, width))
    ensures RightPad(JStr(""), JNum(width), JStr([c])) == Ok(Repeat(c, width))
  {
    assert Repeat(c, width - 0) + "" == Repeat(c, width);
    assert "" + Repeat(c, width - 0) == Repeat(c, width);
  }

  /** Both helpers pad the same text with the same characters: the two
      results are rotations of each other, the padding moved from one end
      to the other. */
  lemma PadsAreRotations(value: Json, width: Json, fill: Json)
    requires LeftPad(value, width, fill).Ok?
    ensures RightPad(value, width, fill).Ok?
    ensures var l, rt, n := LeftPad(value, width, fill).value, RightPad(value, width, fill).value, |Str(value).value|;
      |l| == |rt| && rt == l[|l| - n..] + l[..|l| - n]
  {
    var s, w, c := Str(value).value, WidthOf(width).value, FillOf(fill).value;
    var p := Repeat(c, w - |s|);
    var l := p + s;
    assert l[|l| - |s|..] == s && l[..|l| - |s|] == p;
  }
}
