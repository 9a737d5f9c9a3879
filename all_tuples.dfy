/** The `all_tuples!` function-like macro: `all_tuples!(m, start, end, A, B, ..)`
    expands to one invocation of `m!` per index from `start` to `end`, each
    listing the suffixed identifier tuples built so far. */
module AllTuplesMacro {
  import opened Wrappers
  import opened Naming
  import opened Syntax

  /** The largest value `base10_parse::<usize>` accepts on a 64-bit target. */
  const USIZE_MAX: nat := 0xFFFF_FFFF_FFFF_FFFF

  const ExpectedIdent := "expected identifier"
  const ExpectedComma := "expected `,`"
  const ExpectedLit := "expected integer literal"
  const TooLarge := "number too large to fit in target type"
  const UnexpectedToken := "unexpected token"

  /** The parsed arguments of the macro. */
  datatype AllTuples = AllTuples(macroIdent: string, start: nat, end: nat, idents: seq<string>)

  /** Arguments that some input can produce: both bounds fit a `usize` and at
      least one identifier is given. */
  predicate ValidArgs(a: AllTuples)
  {
    a.start <= USIZE_MAX && a.end <= USIZE_MAX && |a.idents| >= 1
  }

  /** `, B, C, ..`: the comma-prefixed identifiers after the first one. */
  function RenderTail(ids: seq<string>): seq<Token>
  {
    if ids == [] then [] else [Comma, Ident(ids[0])] + RenderTail(ids[1..])
  }

  /** The canonical token stream `m, start, end, A, B, ..` for the arguments. */
  function Render(a: AllTuples): seq<Token>
  {
    [Ident(a.macroIdent), Comma, IntLit(a.start), Comma, IntLit(a.end), Comma]
      + (if a.idents == [] then [] else [Ident(a.idents[0])] + RenderTail(a.idents[1..]))
  }

  /** The `while input.parse::<Comma>().is_ok()` loop followed by the check that
      the whole input was consumed. */
  function ParseTail(ts: seq<Token>): Result<seq<string>>
  {
    if ts == [] then Ok([])
    else if ts[0] != Comma then Err(UnexpectedToken)
    else if |ts| < 2 || !ts[1].Ident? then Err(ExpectedIdent)
    else match ParseTail(ts[2..])
      case Ok(rest) => Ok([ts[1].name] + rest)
      case Err(m) => Err(m)
  }

  /** The grammar accepted by `AllTuples::parse`, stated on the token stream. */
  function ParseArgs(ts: seq<Token>): Result<AllTuples>
  {
    if |ts| == 0 || !ts[0].Ident? then Err(ExpectedIdent)
    else if |ts| == 1 || ts[1] != Comma then Err(ExpectedComma)
    else if |ts| == 2 || !ts[2].IntLit? then Err(ExpectedLit)
    else if ts[2].value > USIZE_MAX then Err(TooLarge)
    else if |ts| == 3 || ts[3] != Comma then Err(ExpectedComma)
    else if |ts| == 4 || !ts[4].IntLit? then Err(ExpectedLit)
    else if ts[4].value > USIZE_MAX then Err(TooLarge)
    else if |ts| == 5 || ts[5] != Comma then Err(ExpectedComma)
    else if |ts| == 6 || !ts[6].Ident? then Err(ExpectedIdent)
    else Complete(ts, [ts[6].name], ParseTail(ts[7..]))
  }

  /** Assembles the parsed arguments from the identifiers read so far and the
      outcome of parsing the rest of the stream. */
  function Complete(ts: seq<Token>, idents: seq<string>, tail: Result<seq<string>>): Result<AllTuples>
    requires |ts| >= 5 && ts[0].Ident? && ts[2].IntLit? && ts[4].IntLit?
  {
    match tail
    case Ok(rest) => Ok(AllTuples(ts[0].name, ts[2].value, ts[4].value, idents + rest))
    case Err(m) => Err(m)
  }

  /** `AllTuples::parse` reading the stream with a cursor. */
  method Parse(ts: seq<Token>) returns (r: Result<AllTuples>)
    ensures r == ParseArgs(ts)
  {
    if |ts| == 0 || !ts[0].Ident? { return Err(ExpectedIdent); }
    if |ts| == 1 || ts[1] != Comma { return Err(ExpectedComma); }
    if |ts| == 2 || !ts[2].IntLit? { return Err(ExpectedLit); }
    if ts[2].value > USIZE_MAX { return Err(TooLarge); }
    if |ts| == 3 || ts[3] != Comma { return Err(ExpectedComma); }
    if |ts| == 4 || !ts[4].IntLit? { return Err(ExpectedLit); }
    if ts[4].value > USIZE_MAX { return Err(TooLarge); }
    if |ts| == 5 || ts[5] != Comma { return Err(ExpectedComma); }
    if |ts| == 6 || !ts[6].Ident? { return Err(ExpectedIdent); }
    var idents := [ts[6].name];
    var pos := 7;
    while pos < |ts| && ts[pos] == Comma
      invariant 7 <= pos <= |ts|
      invariant ParseArgs(ts) == Complete(ts, idents, ParseTail(ts[pos..]))
      decreases |ts| - pos
    {
      if pos + 1 == |ts| || !ts[pos + 1].Ident? {
        return Err(ExpectedIdent);
      }
      assert ts[pos..][2..] == ts[pos + 2..];
      match ParseTail(ts[pos + 2..]) {
        case Ok(rest) =>
          assert idents + ([ts[pos + 1].name] + rest) == (idents + [ts[pos + 1].name]) + rest;
        case Err(_) =>
      }
      idents := idents + [ts[pos + 1].name];
      pos := pos + 2;
    }
    if pos < |ts| {
      return Err(UnexpectedToken);
    }
    assert ts[pos..] == [];
    assert idents + [] == idents;
    r := Ok(AllTuples(ts[0].name, ts[2].value, ts[4].value, idents));
  }

  lemma {:induction false} ParseTailRender(ids: seq<string>)
    ensures ParseTail(RenderTail(ids)) == Ok(ids)
  {
    if ids != [] {
      assert RenderTail(ids)[2..] == RenderTail(ids[1..]);
      ParseTailRender(ids[1..]);
      assert [ids[0]] + ids[1..] == ids;
    }
  }

  lemma {:induction false} ParseTailSound(ts: seq<Token>)
    requires ParseTail(ts).Ok?
    ensures RenderTail(ParseTail(ts).value) == ts
  {
    if ts != [] {
      ParseTailSound(ts[2..]);
      var rest := ParseTail(ts[2..]).value;
      assert ParseTail(ts).value == [ts[1].name] + rest;
      assert ([ts[1].name] + rest)[1..] == rest;
      assert ts == [ts[0], ts[1]] + ts[2..];
    }
  }

  /** Every admissible argument list parses back from its token stream, with
      the identifiers in input order. */
  lemma ParseRender(a: AllTuples)
    requires ValidArgs(a)
    ensures ParseArgs(Render(a)) == Ok(a)
  {
    RenderSplit(a);
    ParseTailRender(a.idents[1..]);
    assert [a.idents[0]] + a.idents[1..] == a.idents;
  }

  /** The fixed seven-token head of a rendered argument list, and its tail. */
  lemma RenderSplit(a: AllTuples)
    requires |a.idents| >= 1
    ensures var ts := Render(a);
      && |ts| >= 7
      && ts[0] == Ident(a.macroIdent) && ts[1] == Comma && ts[2] == IntLit(a.start)
      && ts[3] == Comma && ts[4] == IntLit(a.end) && ts[5] == Comma && ts[6] == Ident(a.idents[0])
      && ts[7..] == RenderTail(a.idents[1..])
  {
  }

  /** What the parser accepts is exactly such a stream: at least one identifier
      after `start, end`, both bounds within `usize`. */
  lemma ParseSound(ts: seq<Token>)
    requires ParseArgs(ts).Ok?
    ensures ValidArgs(ParseArgs(ts).value)
    ensures Render(ParseArgs(ts).value) == ts
  {
    ParseTailSound(ts[7..]);
    var a := ParseArgs(ts).value;
    var rest := ParseTail(ts[7..]).value;
    assert a.idents == [ts[6].name] + rest;
    assert a.idents[1..] == rest;
    assert ts == ts[..7] + ts[7..];
  }

  /** The token(s) one `ident_tuples` entry holds: the identifiers suffixed with
      `i`, juxtaposed when there is a single one, parenthesised otherwise. */
  datatype TupleTokens = Bare(names: seq<string>) | Parenthesized(names: seq<string>)

  /** One emitted `m!(t0, t1, ..);`. */
  datatype Invocation = Invocation(macroIdent: string, tuples: seq<TupleTokens>)

  function SuffixedTuple(idents: seq<string>, i: nat): TupleTokens
  {
    var names := seq(|idents|, j requires 0 <= j < |idents| => Suffixed(idents[j], i));
    if |idents| < 2 then Bare(names) else Parenthesized(names)
  }

  /** The tuple for suffix `i` has one name per identifier, `ident ++ decimal(i)`,
      and tuples built for different suffixes are different. */
  lemma TupleShape(idents: seq<string>, i: nat, j: nat)
    requires |idents| >= 1
    ensures |SuffixedTuple(idents, i).names| == |idents|
    ensures forall k :: 0 <= k < |idents| ==> SuffixedTuple(idents, i).names[k] == idents[k] + Decimal(i)
    ensures SuffixedTuple(idents, i).Bare? <==> |idents| == 1
    ensures SuffixedTuple(idents, i) == SuffixedTuple(idents, j) <==> i == j
  {
    if SuffixedTuple(idents, i) == SuffixedTuple(idents, j) {
      assert SuffixedTuple(idents, i).names[0] == Suffixed(idents[0], i);
      assert SuffixedTuple(idents, j).names[0] == Suffixed(idents[0], j);
      SuffixedInjective(idents[0], i, j);
    }
  }

  /** The `invocations` map: invocation `k` lists the first `k` tuples. */
  function Invocations(macroIdent: string, identTuples: seq<TupleTokens>, count: nat): seq<Invocation>
    requires count <= |identTuples|
  {
    seq(count, k requires 0 <= k < count => Invocation(macroIdent, identTuples[..k]))
  }

  /** `all_tuples` on parsed arguments. `end - start` is computed on `usize`, so
      `start > end` panics. */
  method Expand(input: AllTuples) returns (r: Result<seq<Invocation>>)
    ensures r.Err? <==> input.start > input.end
    ensures r.Ok? ==> |r.value| == input.end - input.start + 1
    ensures r.Ok? ==> forall k :: 0 <= k < |r.value| ==>
      r.value[k].macroIdent == input.macroIdent && |r.value[k].tuples| == k &&
      forall j :: 0 <= j < k ==> r.value[k].tuples[j] == SuffixedTuple(input.idents, input.start + j)
    ensures r.Ok? ==> r.value[0].tuples == []
    ensures r.Ok? ==> forall k :: 0 <= k && k + 1 < |r.value| ==>
      r.value[k + 1].tuples == r.value[k].tuples + [SuffixedTuple(input.idents, input.start + k)]
    ensures r.Ok? && |input.idents| >= 1 ==> forall k, j :: 0 <= k < |r.value| && 0 <= j < |r.value[k].tuples| ==>
      r.value[k].tuples[j] != SuffixedTuple(input.idents, input.end)
  {
    if input.start > input.end {
      return Err("attempt to subtract with overflow");
    }
    var identTuples: seq<TupleTokens> := [];
    for i := input.start to input.end + 1
      invariant |identTuples| == i - input.start
      invariant forall j :: 0 <= j < |identTuples| ==> identTuples[j] == SuffixedTuple(input.idents, input.start + j)
    {
      identTuples := identTuples + [SuffixedTuple(input.idents, i)];
    }
    var out := Invocations(input.macroIdent, identTuples, |identTuples|);
    forall k | 0 <= k && k + 1 < |out|
      ensures out[k + 1].tuples == out[k].tuples + [SuffixedTuple(input.idents, input.start + k)]
    {
      assert identTuples[..k + 1] == identTuples[..k] + [identTuples[k]];
    }
    if |input.idents| >= 1 {
      forall k, j | 0 <= k < |out| && 0 <= j < |out[k].tuples|
        ensures out[k].tuples[j] != SuffixedTuple(input.idents, input.end)
      {
        TupleShape(input.idents, input.start + j, input.end);
      }
    }
    r := Ok(out);
  }

  /** The whole macro: parse, then expand. */
  method AllTuplesMacro(ts: seq<Token>) returns (r: Result<seq<Invocation>>)
    ensures r.Ok? <==> ParseArgs(ts).Ok? && ParseArgs(ts).value.start <= ParseArgs(ts).value.end
    ensures ParseArgs(ts).Err? ==> r == Err(ParseArgs(ts).message)
    ensures r.Ok? ==> |r.value| == ParseArgs(ts).value.end - ParseArgs(ts).value.start + 1
    ensures r.Ok? ==> forall k :: 0 <= k < |r.value| ==>
      r.value[k].macroIdent == ParseArgs(ts).value.macroIdent && |r.value[k].tuples| == k &&
      forall j :: 0 <= j < k ==>
        r.value[k].tuples[j] == SuffixedTuple(ParseArgs(ts).value.idents, ParseArgs(ts).value.start + j)
    ensures r.Ok? ==> r.value[0].tuples == []
    ensures r.Ok? ==> forall k :: 0 <= k && k + 1 < |r.value| ==>
      r.value[k + 1].tuples == r.value[k].tuples + [SuffixedTuple(ParseArgs(ts).value.idents, ParseArgs(ts).value.start + k)]
    ensures r.Ok? ==> forall k, j :: 0 <= k < |r.value| && 0 <= j < |r.value[k].tuples| ==>
      r.value[k].tuples[j] != SuffixedTuple(ParseArgs(ts).value.idents, ParseArgs(ts).value.end)
  {
    var args := Parse(ts);
    if args.Err? {
      return Err(args.message);
    }
    ParseSound(ts);
    r := Expand(args.value);
  }
}
