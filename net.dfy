/**
 * The network (net.cc, net.h): a topology string such as `name-i300-m300`
 * is parsed into a list of layer configurations closed by the output layer,
 * and the net forwards every operation to its layers in a fixed order.
 *
 * The net keeps each layer's configuration (kind, activation, dimensions);
 * the layers' own state is modelled by their classes. The delegation
 * methods return the calls they make, in order, so that the order and the
 * pointers handed from layer to layer can be stated.
 */
module Nets {
  import opened Common
  import opened Functions
  import opened Text
  import opened Numerals
  import opened Vocab
  import Outputs

  // ---------------------------------------------------------------------
  // Splitting on '-' (boost::split with is_any_of("-"), net.cc:230-231)
  // ---------------------------------------------------------------------

  /** The pieces of `s` between occurrences of `sep`; empty pieces are kept. */
  function SplitOn(s: string, sep: char): (r: seq<string>)
    ensures |r| >= 1
    ensures forall k :: 0 <= k < |r| ==> sep !in r[k]
  {
    if s == [] then [[]]
    else if s[0] == sep then [[]] + SplitOn(s[1..], sep)
    else
      var t := SplitOn(s[1..], sep);
      [[s[0]] + t[0]] + t[1..]
  }

  /** The pieces joined back with `sep` between neighbours. */
  function JoinWith(ps: seq<string>, sep: char): string
    requires |ps| >= 1
  {
    if |ps| == 1 then ps[0] else ps[0] + [sep] + JoinWith(ps[1..], sep)
  }

  /** Splitting loses nothing: joining the pieces gives the string back. */
  lemma {:induction false} JoinSplit(s: string, sep: char)
    ensures JoinWith(SplitOn(s, sep), sep) == s
  {
    if s == [] {
    } else if s[0] == sep {
      JoinSplit(s[1..], sep);
      var t := SplitOn(s[1..], sep);
      assert ([[]] + t)[1..] == t;
    } else {
      JoinSplit(s[1..], sep);
      var t := SplitOn(s[1..], sep);
      var r := [[s[0]] + t[0]] + t[1..];
      if |t| == 1 {
        assert r == [[s[0]] + t[0]];
      } else {
        assert r[1..] == t[1..];
        assert JoinWith(t, sep) == t[0] + [sep] + JoinWith(t[1..], sep);
      }
    }
  }

  /** Pieces free of the separator are exactly what splitting their join gives. */
  lemma {:induction false} SplitJoin(ps: seq<string>, sep: char)
    requires |ps| >= 1
    requires forall k :: 0 <= k < |ps| ==> sep !in ps[k]
    ensures SplitOn(JoinWith(ps, sep), sep) == ps
  {
    if |ps| == 1 {
      SplitPiece(ps[0], [], sep);
      assert ps[0] + [] == ps[0];
    } else {
      SplitJoin(ps[1..], sep);
      var rest := JoinWith(ps[1..], sep);
      SplitPiece(ps[0], [sep] + rest, sep);
      assert ps[0] + [sep] + rest == ps[0] + ([sep] + rest);
      assert ([sep] + rest)[0] == sep && ([sep] + rest)[1..] == rest;
      assert ps == [ps[0]] + ps[1..];
    }
  }

  /** A separator-free prefix joins onto the first piece of what follows it. */
  lemma {:induction false} SplitPiece(p: string, rest: string, sep: char)
    requires sep !in p
    requires rest == [] || rest[0] == sep
    ensures var t := SplitOn(p + rest, sep);
      t == (if rest == [] then [p] else [p] + SplitOn(rest[1..], sep))
  {
    if p == [] {
      assert p + rest == rest;
    } else {
      SplitPiece(p[1..], rest, sep);
      assert (p + rest)[1..] == p[1..] + rest;
      assert [p[0]] + p[1..] == p;
    }
  }

  // ---------------------------------------------------------------------
  // Reading the dimension (`std::stringstream >> int`, net.cc:237-239)
  // ---------------------------------------------------------------------

  const IntMax: nat := 0x7fff_ffff

  /** Where the extraction is: before the number, after a sign, in the digits. */
  datatype Phase = Blanks | Signed | InDigits

  /** The integer extraction, one character at a time: white space before
    * the number is skipped, a '+' sign is accepted (a '-' cannot survive
    * the split), and the digits are read up to the first other character.
    * Without a digit the extraction fails and stores 0; a value beyond the
    * largest int stores the largest int, as C++11 streams do. */
  function Scan(s: string, phase: Phase, acc: nat): (d: nat)
    ensures d <= IntMax
  {
    if s == [] || (phase != Blanks && !IsDigit(s[0])) then
      if phase == InDigits then Min(acc, IntMax) else 0
    else if phase == Blanks && IsSpace(s[0]) then Scan(s[1..], Blanks, 0)
    else if phase == Blanks && s[0] == '+' then Scan(s[1..], Signed, 0)
    else if IsDigit(s[0]) then Scan(s[1..], InDigits, acc * 10 + DigitValue(s[0]))
    else 0
  }

  function ParseDimension(s: string): (d: nat)
    ensures d <= IntMax
  {
    Scan(s, Blanks, 0)
  }

  /** The value of a digit string read after `acc`, most significant first. */
  function Accumulate(acc: nat, ds: string): nat
    requires forall k :: 0 <= k < |ds| ==> IsDigit(ds[k])
    decreases |ds|
  {
    if ds == [] then acc else Accumulate(acc * 10 + DigitValue(ds[0]), ds[1..])
  }

  lemma {:induction false} AccumulateSnoc(acc: nat, ds: string, c: char)
    requires forall k :: 0 <= k < |ds| ==> IsDigit(ds[k])
    requires IsDigit(c)
    ensures Accumulate(acc, ds + [c]) == Accumulate(acc, ds) * 10 + DigitValue(c)
    decreases |ds|
  {
    if ds != [] {
      assert (ds + [c])[1..] == ds[1..] + [c];
      AccumulateSnoc(acc * 10 + DigitValue(ds[0]), ds[1..], c);
    } else {
      assert ds + [c] == [c] && [c][1..] == [];
    }
  }

  /** Reading the digits one by one from 0 gives the number they denote. */
  lemma {:induction false} AccumulateFromZero(ds: string)
    requires forall k :: 0 <= k < |ds| ==> IsDigit(ds[k])
    ensures Accumulate(0, ds) == DigitsValue(ds)
    decreases |ds|
  {
    if ds != [] {
      var init := ds[..|ds| - 1];
      AccumulateFromZero(init);
      AccumulateSnoc(0, init, ds[|ds| - 1]);
      assert init + [ds[|ds| - 1]] == ds;
    }
  }

  lemma {:induction false} ScanDigits(ds: string, rest: string, acc: nat)
    requires forall k :: 0 <= k < |ds| ==> IsDigit(ds[k])
    requires rest == [] || !IsDigit(rest[0])
    ensures Scan(ds + rest, InDigits, acc) == Min(Accumulate(acc, ds), IntMax)
  {
    if ds == [] {
      assert ds + rest == rest;
    } else {
      assert (ds + rest)[1..] == ds[1..] + rest;
      ScanDigits(ds[1..], rest, acc * 10 + DigitValue(ds[0]));
    }
  }

  /** A decimal number followed by anything that is not a digit reads back
    * as that number. */
  lemma ParseDimensionDecimal(n: nat, rest: string)
    requires n <= IntMax
    requires rest == [] || !IsDigit(rest[0])
    ensures ParseDimension(Decimal(n) + rest) == n
  {
    var ds := Decimal(n);
    assert (ds + rest)[0] == ds[0] && (ds + rest)[1..] == ds[1..] + rest;
    ScanDigits(ds[1..], rest, DigitValue(ds[0]));
    assert Accumulate(0, ds) == Accumulate(DigitValue(ds[0]), ds[1..]);
    DecimalValue(n);
    AccumulateFromZero(ds);
  }

  /** White space and one '+' in front of the number do not change it. */
  lemma ParseSkipsBlanks(blanks: string, n: nat, rest: string)
    requires forall k :: 0 <= k < |blanks| ==> IsSpace(blanks[k])
    requires n <= IntMax && (rest == [] || !IsDigit(rest[0]))
    ensures ParseDimension(blanks + Decimal(n) + rest) == n
    ensures ParseDimension(blanks + "+" + Decimal(n) + rest) == n
  {
    ScanBlanks(blanks, Decimal(n) + rest);
    ScanBlanks(blanks, "+" + Decimal(n) + rest);
    assert blanks + Decimal(n) + rest == blanks + (Decimal(n) + rest);
    assert blanks + "+" + Decimal(n) + rest == blanks + ("+" + Decimal(n) + rest);
    ParseDimensionDecimal(n, rest);
    var ds := Decimal(n);
    assert ("+" + ds + rest)[1..] == ds + rest;
    assert (ds + rest)[0] == ds[0] && (ds + rest)[1..] == ds[1..] + rest;
    ScanDigits(ds[1..], rest, DigitValue(ds[0]));
  }

  lemma {:induction false} ScanBlanks(blanks: string, s: string)
    requires forall k :: 0 <= k < |blanks| ==> IsSpace(blanks[k])
    ensures Scan(blanks + s, Blanks, 0) == Scan(s, Blanks, 0)
  {
    if blanks != [] {
      assert (blanks + s)[1..] == blanks[1..] + s;
      ScanBlanks(blanks[1..], s);
    } else {
      assert blanks + s == s;
    }
  }

  /** Text that starts with neither white space, a sign nor a digit reads as 0. */
  lemma ParseNoNumber(s: string)
    requires s == [] || (!IsSpace(s[0]) && s[0] != '+' && !IsDigit(s[0]))
    ensures ParseDimension(s) == 0
  {
  }

  // ---------------------------------------------------------------------
  // Character dispatch (net.cc:134-226)
  // ---------------------------------------------------------------------

  /** Types that make a table lookup in first position and a linear layer
    * after it. */
  predicate IsDenseType(c: char)
  {
    ('2' <= c <= '9') || c == 'i' || c == 'l' || c == 'L' || c == 'r' || c == 'R'
  }

  predicate IsLstmType(c: char) { c == 'm' || c == 'M' }

  /** `SetUpActivationFunction` (net.cc:134-162): an LSTM gets no
    * activation object, an unknown type fails the assertion. */
  function ActivationOf(c: char): Outcome<Option<Activation>>
  {
    if ('2' <= c <= '9') || c == 'i' then Done(Some(Identity))
    else if c == 'l' || c == 'r' then Done(Some(Tanh))
    else if c == 'L' || c == 'R' then Done(Some(Sigmoid))
    else if IsLstmType(c) then Done(None)
    else if c == 'x' then Done(Some(Softmax))
    else Fatal("unknown layer type")
  }

  /** The activation map, one direction per class of type characters. */
  lemma ActivationMap(c: char)
    ensures ActivationOf(c).IsFatal() <==> !(IsDenseType(c) || IsLstmType(c) || c == 'x')
    ensures ActivationOf(c) == Done(None) <==> IsLstmType(c)
    ensures ActivationOf(c) == Done(Some(Softmax)) <==> c == 'x'
    ensures ActivationOf(c) == Done(Some(Identity)) <==> ('2' <= c <= '9') || c == 'i'
    ensures ActivationOf(c) == Done(Some(Tanh)) <==> c == 'l' || c == 'r'
    ensures ActivationOf(c) == Done(Some(Sigmoid)) <==> c == 'L' || c == 'R'
  {
  }

  datatype LayerKind =
    | TableLookupKind(order: nat, recurrent: bool)
    | LinearKind(recurrent: bool)
    | LstmKind
    | OutputKind

  /** What the net needs to know about a layer: its kind, its activation
    * object, the dimensions it was built with and whether it has biases. */
  datatype LayerConfig = LayerConfig(kind: LayerKind, activation: Option<Activation>,
                                     dims: Dims, useBias: bool)

  /** The n-gram order a table lookup gets from its type character. */
  function OrderOf(c: char): nat
  {
    if '2' <= c <= '9' then c as nat - '0' as nat else 1
  }

  /** The fixed parts of the net every layer is built from (net.cc:32-49). */
  datatype Setting = Setting(vocab: Vocabulary, batch: nat, length: nat, numOovs: nat, isFeedforward: bool)

  /** `SetUpFunction` (net.cc:164-226) together with the layer constructors'
    * own assertions: `current` is the net's output dimension so far. */
  function SetUpFunction(st: Setting, c: char, dimension: nat, first: bool, useBias: bool,
                         g: Option<Activation>, current: nat): Outcome<LayerConfig>
    requires st.vocab.WellFormed()
  {
    if IsDenseType(c) then
      if first then
        var order := OrderOf(c);
        if dimension % order != 0 then Fatal("output dimension not a multiple of the order")
        else Done(LayerConfig(TableLookupKind(order, c == 'r' || c == 'R'), g,
                              Dims(st.vocab.Size(), dimension, st.batch, st.length), useBias))
      else Done(LayerConfig(LinearKind(c == 'r' || c == 'R'), g, Dims(current, dimension, st.batch, st.length), useBias))
    else if IsLstmType(c) then
      if first then Fatal("an LSTM cannot be the first layer")
      else Done(LayerConfig(LstmKind, g, Dims(current, dimension, st.batch, st.length), useBias))
    else if c == 'x' then
      Done(LayerConfig(OutputKind, g, Outputs.OutputDims(st.vocab, current, st.batch, st.length), useBias))
    else Fatal("unknown layer type")
  }

  /** The layer map: which kind each type character builds, from which
    * dimensions, and when it fails. */
  lemma SetUpFunctionKinds(st: Setting, c: char, dimension: nat, first: bool, useBias: bool,
                           g: Option<Activation>, current: nat)
    requires st.vocab.WellFormed()
    ensures var r := SetUpFunction(st, c, dimension, first, useBias, g, current);
      && (IsDenseType(c) && first ==> (r.IsFatal() <==> dimension % OrderOf(c) != 0))
      && (IsDenseType(c) && first && r.Done? ==>
            r.value == LayerConfig(TableLookupKind(OrderOf(c), c == 'r' || c == 'R'), g,
                                   Dims(st.vocab.Size(), dimension, st.batch, st.length), useBias))
      && (IsDenseType(c) && !first ==>
            r == Done(LayerConfig(LinearKind(c == 'r' || c == 'R'), g, Dims(current, dimension, st.batch, st.length), useBias)))
      && (IsLstmType(c) ==> (r.IsFatal() <==> first))
      && (IsLstmType(c) && !first ==> r == Done(LayerConfig(LstmKind, g, Dims(current, dimension, st.batch, st.length), useBias)))
      && (c == 'x' ==> r == Done(LayerConfig(OutputKind, g, Outputs.OutputDims(st.vocab, current, st.batch, st.length), useBias)))
      && (!IsDenseType(c) && !IsLstmType(c) && c != 'x' ==> r.IsFatal())
  {
  }

  /** One token after the name (net.cc:233-245): its first character is the
    * type, the rest the dimension. `tokens[i][0]` of an empty token reads
    * the terminating NUL, and `substr(1)` of it throws. */
  function TokenLayer(st: Setting, token: string, first: bool, useBias: bool, current: nat): (r: Outcome<LayerConfig>)
    requires st.vocab.WellFormed()
  {
    var c := if token == [] then '\0' else token[0];
    if c == 'x' then Fatal("type x in the topology")
    else if token == [] then Fatal("substr out of range")
    else
      match ActivationOf(c)
      case Fatal(why) => Fatal(why)
      case Done(g) => SetUpFunction(st, c, DimensionOf(token), first, useBias, g, current)
  }

  /** The dimension a token asks for: what follows its type character. */
  function DimensionOf(token: string): nat
  {
    if token == [] then 0 else ParseDimension(token[1..])
  }

  /** When a token fails, independently of the dispatch functions. */
  predicate TokenFails(token: string, first: bool)
  {
    || token == []
    || token[0] == 'x'
    || !(IsDenseType(token[0]) || IsLstmType(token[0]))
    || (IsLstmType(token[0]) && first)
    || (IsDenseType(token[0]) && first && DimensionOf(token) % OrderOf(token[0]) != 0)
  }

  lemma TokenLayerFails(st: Setting, token: string, first: bool, useBias: bool, current: nat)
    requires st.vocab.WellFormed()
    ensures TokenLayer(st, token, first, useBias, current).IsFatal() <==> TokenFails(token, first)
  {
  }

  lemma TokenLayerShape(st: Setting, token: string, first: bool, useBias: bool, current: nat)
    requires st.vocab.WellFormed()
    requires TokenLayer(st, token, first, useBias, current).Done?
    ensures var f := TokenLayer(st, token, first, useBias, current).value;
      && f.kind != OutputKind
      && (first <==> f.kind.TableLookupKind?)
      && f.dims.output == DimensionOf(token)
      && f.dims.input == (if first then st.vocab.Size() else current)
      && f.activation == ActivationOf(token[0]).value
  {
  }

  /** Some token among the first `n` fails. */
  ghost predicate SomeTokenFails(tokens: seq<string>, n: nat)
    requires n <= |tokens|
  {
    exists k :: 0 <= k < n && TokenFails(tokens[k], k == 0)
  }

  /** The net's output dimension once `ls` are composed onto a net whose
    * output dimension was `current` (net.h:92-95). */
  function OutputAfter(ls: seq<LayerConfig>, current: nat): nat
  {
    if ls == [] then current else Last(ls).dims.output
  }

  /** The layers the first `n` tokens after the name add, or the first
    * failure; `current` is the net's output dimension before them. */
  function LayersFrom(st: Setting, tokens: seq<string>, n: nat, useBias: bool, current: nat): Outcome<seq<LayerConfig>>
    requires st.vocab.WellFormed() && n <= |tokens|
  {
    if n == 0 then Done([])
    else match LayersFrom(st, tokens, n - 1, useBias, current)
      case Fatal(why) => Fatal(why)
      case Done(ls) =>
        match TokenLayer(st, tokens[n - 1], n == 1, useBias, OutputAfter(ls, current))
        case Fatal(why) => Fatal(why)
        case Done(f) => Done(ls + [f])
  }

  /** `BuildNetworkLayers` (net.cc:228-255) as a value: the tokens' layers,
    * then the output layer on whatever the last of them produces. */
  function Topology(st: Setting, config: string, useBias: bool, current: nat): Outcome<seq<LayerConfig>>
    requires st.vocab.WellFormed()
  {
    var tokens := SplitOn(config, '-')[1..];
    match LayersFrom(st, tokens, |tokens|, useBias, current)
    case Fatal(why) => Fatal(why)
    case Done(ls) =>
      var input := OutputAfter(ls, current);
      Done(ls + [LayerConfig(OutputKind, Some(Softmax), Outputs.OutputDims(st.vocab, input, st.batch, st.length), useBias)])
  }

  /** The shape of a parsed token list: one layer per token, each fed by
    * the one before it, the first by the vocabulary, none an output layer. */
  ghost predicate Chained(st: Setting, tokens: seq<string>, ls: seq<LayerConfig>, current: nat)
    requires |ls| == |tokens|
  {
    && (forall k :: 0 <= k < |ls| ==> ls[k].kind != OutputKind)
    && (forall k :: 0 <= k < |ls| ==> (k == 0 <==> ls[k].kind.TableLookupKind?))
    && (forall k :: 0 <= k < |ls| ==> ls[k].dims.output == DimensionOf(tokens[k]))
    && (ls != [] ==> ls[0].dims.input == st.vocab.Size())
    && (forall k :: 1 <= k < |ls| ==> ls[k].dims.input == ls[k - 1].dims.output)
  }

  /** A prefix of the tokens fails exactly when one of its tokens does. */
  lemma {:induction false} LayersFromFails(st: Setting, tokens: seq<string>, n: nat, useBias: bool, current: nat)
    requires st.vocab.WellFormed() && n <= |tokens|
    ensures LayersFrom(st, tokens, n, useBias, current).IsFatal() <==> SomeTokenFails(tokens, n)
  {
    if n > 0 {
      LayersFromFails(st, tokens, n - 1, useBias, current);
      var prev := LayersFrom(st, tokens, n - 1, useBias, current);
      if prev.Done? {
        var ls := prev.value;
        var input := OutputAfter(ls, current);
        TokenLayerFails(st, tokens[n - 1], n == 1, useBias, input);
        assert LayersFrom(st, tokens, n, useBias, current).IsFatal() <==>
          TokenLayer(st, tokens[n - 1], n == 1, useBias, input).IsFatal();
        if TokenFails(tokens[n - 1], n - 1 == 0) {
          assert SomeTokenFails(tokens, n);
        } else {
          assert !SomeTokenFails(tokens, n - 1);
          assert forall k :: 0 <= k < n ==> !TokenFails(tokens[k], k == 0);
        }
      } else {
        var k :| 0 <= k < n - 1 && TokenFails(tokens[k], k == 0);
        assert 0 <= k < n && TokenFails(tokens[k], k == 0);
      }
    }
  }

  lemma {:induction false} LayersFromShape(st: Setting, tokens: seq<string>, n: nat, useBias: bool, current: nat)
    requires st.vocab.WellFormed() && n <= |tokens|
    requires LayersFrom(st, tokens, n, useBias, current).Done?
    ensures var ls := LayersFrom(st, tokens, n, useBias, current).value;
      |ls| == n && Chained(st, tokens[..n], ls, current)
  {
    if n > 0 {
      var ls, f := LayersFromStep(st, tokens, n, useBias, current);
      LayersFromShape(st, tokens, n - 1, useBias, current);
      assert tokens[..n] == tokens[..n - 1] + [tokens[n - 1]];
      ChainedSnoc(st, tokens[..n - 1], ls, tokens[n - 1], f, current);
    }
  }

  /** The layers of n tokens are those of the first n - 1 and the layer of token n - 1. */
  lemma LayersFromStep(st: Setting, tokens: seq<string>, n: nat, useBias: bool, current: nat)
    returns (ls: seq<LayerConfig>, f: LayerConfig)
    requires st.vocab.WellFormed() && 0 < n <= |tokens|
    requires LayersFrom(st, tokens, n, useBias, current).Done?
    ensures LayersFrom(st, tokens, n - 1, useBias, current) == Done(ls)
    ensures LayersFrom(st, tokens, n, useBias, current) == Done(ls + [f])
    ensures f.kind != OutputKind && (n == 1 <==> f.kind.TableLookupKind?)
    ensures f.dims.output == DimensionOf(tokens[n - 1])
    ensures f.dims.input == (if n == 1 then st.vocab.Size() else OutputAfter(ls, current))
  {
    ls := LayersFrom(st, tokens, n - 1, useBias, current).value;
    var input := OutputAfter(ls, current);
    TokenLayerShape(st, tokens[n - 1], n == 1, useBias, input);
    f := TokenLayer(st, tokens[n - 1], n == 1, useBias, input).value;
  }

  lemma ChainedSnoc(st: Setting, tokens: seq<string>, ls: seq<LayerConfig>, token: string, f: LayerConfig, current: nat)
    requires |ls| == |tokens| && Chained(st, tokens, ls, current)
    requires f.kind != OutputKind && (ls == [] <==> f.kind.TableLookupKind?)
    requires f.dims.output == DimensionOf(token)
    requires f.dims.input == (if ls == [] then st.vocab.Size() else Last(ls).dims.output)
    ensures Chained(st, tokens + [token], ls + [f], current)
  {
    var ts, ms := tokens + [token], ls + [f];
    assert forall k :: 0 <= k < |ls| ==> ms[k] == ls[k] && ts[k] == tokens[k];
  }

  /** The parser's promise: the topology fails exactly when some token
    * does; otherwise it holds one layer per token, chained input to output,
    * and a single output layer, last, reading the last token layer (or the
    * net's dimension so far when there is none). */
  lemma TopologyShape(st: Setting, config: string, useBias: bool, current: nat)
    requires st.vocab.WellFormed()
    ensures var tokens := SplitOn(config, '-')[1..];
      Topology(st, config, useBias, current).IsFatal() <==> SomeTokenFails(tokens, |tokens|)
    ensures var tokens := SplitOn(config, '-')[1..];
      Topology(st, config, useBias, current).Done? ==>
      var ls := Topology(st, config, useBias, current).value;
      && |ls| == |tokens| + 1
      && Chained(st, tokens, ls[..|tokens|], current)
      && ls[|tokens|].kind == OutputKind
      && ls[|tokens|].activation == Some(Softmax)
      && ls[|tokens|].dims.input == (if tokens == [] then current else ls[|tokens| - 1].dims.output)
      && ls[|tokens|].dims.output == st.vocab.Size() + st.vocab.NumClasses() - st.vocab.shortlistSize
  {
    var tokens := SplitOn(config, '-')[1..];
    LayersFromFails(st, tokens, |tokens|, useBias, current);
    assert tokens[..|tokens|] == tokens;
    var r := LayersFrom(st, tokens, |tokens|, useBias, current);
    if r.Done? {
      LayersFromShape(st, tokens, |tokens|, useBias, current);
      var ls := Topology(st, config, useBias, current).value;
      assert ls[..|tokens|] == r.value;
    }
  }

  /** The only output layer of a built net is the last one. */
  ghost predicate OutputOnlyLast(ls: seq<LayerConfig>)
  {
    ls != [] && Last(ls).kind == OutputKind && forall k :: 0 <= k < |ls| - 1 ==> ls[k].kind != OutputKind
  }

  lemma TopologyOutputLast(st: Setting, config: string, useBias: bool, current: nat)
    requires st.vocab.WellFormed()
    requires Topology(st, config, useBias, current).Done?
    ensures OutputOnlyLast(Topology(st, config, useBias, current).value)
  {
    TopologyShape(st, config, useBias, current);
  }

  /** The topology the demo scripts load (demo/code/word_generate.py:93): a
    * file name, a 300-wide projection, a 300-wide LSTM. */
  lemma ExampleTopology(st: Setting)
    requires st.vocab.WellFormed()
    ensures SplitOn("../data/ptt_language_model-i300-m300", '-') == ["../data/ptt_language_model", "i300", "m300"]
    ensures Topology(st, "../data/ptt_language_model-i300-m300", true, 0).Done?
    ensures var ls := Topology(st, "../data/ptt_language_model-i300-m300", true, 0).value;
      && |ls| == 3
      && ls[0] == LayerConfig(TableLookupKind(1, false), Some(Identity), Dims(st.vocab.Size(), 300, st.batch, st.length), true)
      && ls[1] == LayerConfig(LstmKind, None, Dims(300, 300, st.batch, st.length), true)
      && ls[2].kind == OutputKind && ls[2].dims.input == 300
  {
    ExampleName();
    var tokens := SplitOn("../data/ptt_language_model-i300-m300", '-')[1..];
    assert tokens == ["i300", "m300"];
    var l0, l1 := ExampleLayers(st, tokens);
  }

  /** The demo's network file name splits at '-' into its path and two layer tokens. */
  lemma ExampleName()
    ensures SplitOn("../data/ptt_language_model-i300-m300", '-') == ["../data/ptt_language_model", "i300", "m300"]
  {
    var pieces := ["../data/ptt_language_model", "i300", "m300"];
    assert JoinWith(pieces, '-') == "../data/ptt_language_model-i300-m300";
    SplitJoin(pieces, '-');
  }

  lemma ExampleLayers(st: Setting, tokens: seq<string>) returns (l0: LayerConfig, l1: LayerConfig)
    requires st.vocab.WellFormed() && tokens == ["i300", "m300"]
    ensures l0 == LayerConfig(TableLookupKind(1, false), Some(Identity), Dims(st.vocab.Size(), 300, st.batch, st.length), true)
    ensures l1 == LayerConfig(LstmKind, None, Dims(300, 300, st.batch, st.length), true)
    ensures LayersFrom(st, tokens, 2, true, 0) == Done([l0, l1])
  {
    ExampleDimensions();
    l0 := LayerConfig(TableLookupKind(1, false), Some(Identity), Dims(st.vocab.Size(), 300, st.batch, st.length), true);
    l1 := LayerConfig(LstmKind, None, Dims(300, 300, st.batch, st.length), true);
    assert tokens[0][0] == 'i' && tokens[1][0] == 'm' && tokens[0] != [] && tokens[1] != [];
    assert ActivationOf('i') == Done(Some(Identity)) && ActivationOf('m') == Done(None);
    SetUpFunctionKinds(st, 'i', 300, true, true, Some(Identity), 0);
    assert DimensionOf(tokens[0]) == 300;
    assert IsDenseType('i') && OrderOf('i') == 1 && 300 % 1 == 0;
    assert SetUpFunction(st, 'i', 300, true, true, Some(Identity), 0) == Done(l0);
    assert tokens[0] != [] && tokens[0][0] != 'x';
    assert TokenLayer(st, tokens[0], true, true, 0) == SetUpFunction(st, tokens[0][0], DimensionOf(tokens[0]), true, true, Some(Identity), 0);
    assert TokenLayer(st, tokens[0], true, true, 0) == Done(l0);
    var none: seq<LayerConfig> := [];
    assert LayersFrom(st, tokens, 0, true, 0) == Done(none);
    assert none + [l0] == [l0];
    assert LayersFrom(st, tokens, 1, true, 0) == Done([l0]);
    assert Last([l0]).dims.output == 300;
    SetUpFunctionKinds(st, 'm', 300, false, true, None, 300);
    assert TokenLayer(st, tokens[1], false, true, 300) == Done(l1);
    assert [l0] + [l1] == [l0, l1];
  }

  lemma ExampleDimensions()
    ensures DimensionOf("i300") == 300 && DimensionOf("m300") == 300
  {
    ParseDimensionDecimal(300, []);
    assert Decimal(300) == "300" by {
      assert Decimal(3) == "3";
      assert Decimal(30) == "30";
    }
    assert "300" + [] == "300";
    assert "i300"[1..] == "300" == "m300"[1..];
  }

  // ---------------------------------------------------------------------
  // Delegation
  // ---------------------------------------------------------------------

  /** A pointer handed between layers: the caller's, or the one layer k returned. */
  datatype Pointer = FromCaller | FromLayer(k: nat)

  /** A call the net makes on one of its layers. */
  datatype Call =
    | EvaluateCall(layer: nat, input: Pointer)
    | ComputeDeltaCall(layer: nat, next: Pointer)
    | UpdateWeightsCall(layer: nat, rate: real, input: Pointer)
    | MomentumCall(layer: nat, momentum: real)
    | ResetMomentumCall(layer: nat)
    | ResetCall(layer: nat, dependent: bool)
    | ResetHistoriesCall(layer: nat)
    | RandomizeCall(layer: nat)
    | ExtractStateCall(layer: nat)
    | SetStateCall(layer: nat, entry: nat)

  /** The buffer address the layer before `k` returned, the caller's for the first. */
  function Previous(k: nat): Pointer
  {
    if k == 0 then FromCaller else FromLayer(k - 1)
  }

  /** The buffer address that comes from the layer after `k`; the caller's for the last of n. */
  function Following(k: nat, n: nat): Pointer
  {
    if k + 1 == n then FromCaller else FromLayer(k + 1)
  }

  /** The entries of the state vector, naming the layer that pushed each:
    * every layer but an output layer pushes one (output.h:47-48). */
  function StateOwners(ls: seq<LayerConfig>): (owners: seq<nat>)
    ensures forall j :: 0 <= j < |owners| ==> owners[j] < |ls|
  {
    if ls == [] then []
    else
      var rest := StateOwners(ls[..|ls| - 1]);
      if Last(ls).kind == OutputKind then rest else rest + [|ls| - 1]
  }

  /** With the output layer last and alone, entry j belongs to layer j, so
    * `SetState` handing layer j entry j restores every layer's own entry. */
  lemma {:induction false} StateAligned(ls: seq<LayerConfig>)
    requires forall k :: 0 <= k < |ls| - 1 ==> ls[k].kind != OutputKind
    ensures var owners := StateOwners(ls);
      && |owners| == (if ls != [] && Last(ls).kind == OutputKind then |ls| - 1 else |ls|)
      && forall j :: 0 <= j < |owners| ==> owners[j] == j
  {
    if ls != [] {
      var front := ls[..|ls| - 1];
      if front != [] {
        assert Last(front) == ls[|ls| - 2];
        assert forall k :: 0 <= k < |front| - 1 ==> front[k] == ls[k];
      }
      StateAligned(front);
      assert front == [] || Last(front).kind != OutputKind;
    }
  }

  /** A checkpoint: the header the net writes, then each layer's arrays in
    * layer order (net.cc:102-122). */
  datatype Checkpoint = Checkpoint(epoch: int, learningRate: real, bestPerplexity: real,
                                   layers: seq<seq<seq<real>>>)

  /** The files a run sees, by name. */
  type Files = map<string, Checkpoint>

  /** `Write(file_name)` (net.cc:265-274): an existing file is first copied
    * to the name with ".bk" appended, then the checkpoint is written. */
  function Saved(fs: Files, name: string, cp: Checkpoint): (r: Files)
    ensures name in r && r[name] == cp
    ensures name in fs ==> name + ".bk" in r && r[name + ".bk"] == fs[name]
    ensures r.Keys == fs.Keys + {name} + (if name in fs then {name + ".bk"} else {})
    ensures forall other :: other in fs && other != name && other != name + ".bk" ==> r[other] == fs[other]
  {
    var backed := if name in fs then fs[name + ".bk" := fs[name]] else fs;
    backed[name := cp]
  }

  lemma BackupNameDiffers(name: string)
    ensures name + ".bk" != name
  {
    assert |name + ".bk"| != |name|;
  }

  /** Writing twice under one name keeps the first checkpoint as the backup. */
  lemma SavedTwice(fs: Files, name: string, first: Checkpoint, second: Checkpoint)
    ensures var r := Saved(Saved(fs, name, first), name, second);
      r[name] == second && r[name + ".bk"] == first
  {
    BackupNameDiffers(name);
  }

  /** `Read(file_name)` (net.cc:257-263) asserts the file exists. */
  function Loaded(fs: Files, name: string): (r: Outcome<Checkpoint>)
    ensures r.IsFatal() <==> name !in fs
    ensures name in fs ==> r == Done(fs[name])
  {
    if name in fs then Done(fs[name]) else Fatal("no such file")
  }

  lemma LoadSaved(fs: Files, name: string, cp: Checkpoint)
    ensures Loaded(Saved(fs, name, cp), name) == Done(cp)
  {
  }

  class Net {
    const setting: Setting
    var epoch: int
    var learningRate: real
    var momentum: real
    var bestPerplexity: real
    var layers: seq<LayerConfig>
    var outputDimension: nat
    /** The layers' arrays, layer by layer, in the order their `Write` visits them. */
    var weights: seq<seq<seq<real>>>

    /** The constructor (net.cc:32-49): a net is a function of input
      * dimension 1 and output dimension 0 with no layers; the best
      * perplexity starts at the largest representable value `maxReal`. */
    constructor(st: Setting, learningRate: real, momentum: real, maxReal: real)
      ensures setting == st && layers == [] && outputDimension == 0
      ensures epoch == 0 && this.learningRate == learningRate && this.momentum == momentum
      ensures bestPerplexity == maxReal && weights == []
    {
      setting := st;
      epoch := 0;
      this.learningRate := learningRate;
      this.momentum := momentum;
      bestPerplexity := maxReal;
      layers := [];
      outputDimension := 0;
      weights := [];
    }

    /** The dimensions the net has as a function (function.h:120-122). */
    function NetDims(): Dims
      reads this
    {
      Dims(1, outputDimension, setting.batch, setting.length)
    }

    /** `Compose` (net.h:92-95): the layer goes last and its output
      * dimension becomes the net's. */
    method Compose(f: LayerConfig)
      modifies this
      ensures layers == old(layers) + [f] && outputDimension == f.dims.output
      ensures epoch == old(epoch) && learningRate == old(learningRate)
      ensures momentum == old(momentum) && bestPerplexity == old(bestPerplexity) && weights == old(weights)
    {
      layers := layers + [f];
      outputDimension := f.dims.output;
    }

    /** `BuildNetworkLayers` (net.cc:228-255): the layers of `config` are
      * composed onto the net one token at a time, then the output layer. */
    method BuildNetworkLayers(config: string, useBias: bool) returns (r: Outcome<()>)
      requires setting.vocab.WellFormed()
      modifies this
      ensures r.IsFatal() <==> Topology(setting, config, useBias, old(outputDimension)).IsFatal()
      ensures !r.IsFatal() ==> layers == old(layers) + Topology(setting, config, useBias, old(outputDimension)).value
      ensures !r.IsFatal() ==> outputDimension == Last(layers).dims.output
      ensures epoch == old(epoch) && learningRate == old(learningRate)
      ensures momentum == old(momentum) && bestPerplexity == old(bestPerplexity) && weights == old(weights)
    {
      var tokens := SplitOn(config, '-')[1..];
      r := ComposeTokens(tokens, useBias);
      if r.Fatal? {
        return;
      }
      var g := Outputs.OutputDims(setting.vocab, outputDimension, setting.batch, setting.length);
      Compose(LayerConfig(OutputKind, Some(Softmax), g, useBias));
    }

    /** The loop of `BuildNetworkLayers` (net.cc:233-246): token i is the
      * first layer exactly when i is 0, and reads the net's output
      * dimension so far. */
    method ComposeTokens(tokens: seq<string>, useBias: bool) returns (r: Outcome<()>)
      requires setting.vocab.WellFormed()
      modifies this
      ensures var built := LayersFrom(setting, tokens, |tokens|, useBias, old(outputDimension));
        && (r.IsFatal() <==> built.IsFatal())
        && (!r.IsFatal() ==> layers == old(layers) + built.value)
        && (!r.IsFatal() ==> outputDimension == OutputAfter(built.value, old(outputDimension)))
      ensures epoch == old(epoch) && learningRate == old(learningRate)
      ensures momentum == old(momentum) && bestPerplexity == old(bestPerplexity) && weights == old(weights)
    {
      ghost var start := outputDimension;
      ghost var before := layers;
      for i := 0 to |tokens|
        invariant LayersFrom(setting, tokens, i, useBias, start).Done?
        invariant layers == before + LayersFrom(setting, tokens, i, useBias, start).value
        invariant outputDimension == OutputAfter(LayersFrom(setting, tokens, i, useBias, start).value, start)
        invariant epoch == old(epoch) && learningRate == old(learningRate)
        invariant momentum == old(momentum) && bestPerplexity == old(bestPerplexity) && weights == old(weights)
      {
        var f := TokenLayer(setting, tokens[i], i == 0, useBias, outputDimension);
        if f.Fatal? {
          LayersFromFatal(setting, tokens, i + 1, useBias, start);
          return Fatal(f.reason);
        }
        Compose(f.value);
      }
      r := Done(());
    }

    /** `Evaluate` (net.cc:51-55): layer k reads the buffer address layer k-1
      * returned, the first layer the caller's; the net returns the last
      * layer's pointer. */
    method Evaluate() returns (result: Pointer, calls: seq<Call>)
      ensures |calls| == |layers|
      ensures forall k :: 0 <= k < |layers| ==> calls[k] == EvaluateCall(k, Previous(k))
      ensures result == Previous(|layers|)
    {
      calls := [];
      result := FromCaller;
      for k := 0 to |layers|
        invariant |calls| == k && result == Previous(k)
        invariant forall j :: 0 <= j < k ==> calls[j] == EvaluateCall(j, Previous(j))
      {
        calls := calls + [EvaluateCall(k, result)];
        result := FromLayer(k);
      }
    }

    /** `ComputeDelta` (net.cc:57-62): from the last layer to the first,
      * each layer gets the layer after it, the last one the caller's. */
    method ComputeDelta() returns (calls: seq<Call>)
      ensures |calls| == |layers|
      ensures forall j :: 0 <= j < |layers| ==>
        calls[j] == ComputeDeltaCall(|layers| - 1 - j, Following(|layers| - 1 - j, |layers|))
    {
      calls := [];
      var f := FromCaller;
      var n := |layers|;
      for j := 0 to n
        invariant |calls| == j && f == (if j == 0 then FromCaller else FromLayer(n - j))
        invariant forall i :: 0 <= i < j ==> calls[i] == ComputeDeltaCall(n - 1 - i, Following(n - 1 - i, n))
      {
        var g := n - 1 - j;
        calls := calls + [ComputeDeltaCall(g, f)];
        f := FromLayer(g);
      }
    }

    /** The two `UpdateWeights` (net.cc:64-74): like `Evaluate`, and every
      * layer gets the same rate, the net's own unless one is given. */
    method UpdateWeights(rate: Option<real>) returns (result: Pointer, calls: seq<Call>)
      ensures var lr := if rate.Some? then rate.value else learningRate;
        && |calls| == |layers|
        && (forall k :: 0 <= k < |layers| ==> calls[k] == UpdateWeightsCall(k, lr, Previous(k)))
      ensures result == Previous(|layers|)
    {
      var lr := if rate.Some? then rate.value else learningRate;
      calls := [];
      result := FromCaller;
      for k := 0 to |layers|
        invariant |calls| == k && result == Previous(k)
        invariant forall j :: 0 <= j < k ==> calls[j] == UpdateWeightsCall(j, lr, Previous(j))
      {
        calls := calls + [UpdateWeightsCall(k, lr, result)];
        result := FromLayer(k);
      }
    }

    /** `UpdateMomentumWeights` (net.h:49-56): every layer in order, with
      * the stored momentum unless one is given. */
    method UpdateMomentumWeights(given: Option<real>) returns (calls: seq<Call>)
      ensures var m := if given.Some? then given.value else momentum;
        && |calls| == |layers|
        && forall k :: 0 <= k < |layers| ==> calls[k] == MomentumCall(k, m)
    {
      var m := if given.Some? then given.value else momentum;
      calls := [];
      for k := 0 to |layers|
        invariant |calls| == k
        invariant forall j :: 0 <= j < k ==> calls[j] == MomentumCall(j, m)
      {
        calls := calls + [MomentumCall(k, m)];
      }
    }

    /** `ResetMomentum`, `ResetHistories` and `RandomizeWeights`
      * (net.h:58-70, net.cc:97-100): one call per layer, in order. */
    method VisitAll(op: nat -> Call) returns (calls: seq<Call>)
      ensures |calls| == |layers|
      ensures forall k :: 0 <= k < |layers| ==> calls[k] == op(k)
    {
      calls := [];
      for k := 0 to |layers|
        invariant |calls| == k
        invariant forall j :: 0 <= j < k ==> calls[j] == op(j)
      {
        calls := calls + [op(k)];
      }
    }

    /** `Reset` (net.cc:80-84): a sequence-dependent reset needs batch size
      * 1; then every layer is reset in order. */
    method Reset(dependent: bool) returns (r: Outcome<seq<Call>>)
      ensures r.IsFatal() <==> dependent && setting.batch != 1
      ensures r.Done? ==> |r.value| == |layers|
      ensures r.Done? ==> forall k :: 0 <= k < |layers| ==> r.value[k] == ResetCall(k, dependent)
    {
      if dependent && setting.batch != 1 {
        return Fatal("dependent reset needs batch size 1");
      }
      var calls := VisitAll((k: nat) => ResetCall(k, dependent));
      r := Done(calls);
    }

    /** `ExtractState` (net.cc:86-89): each layer appends its entries in
      * order; the result names the layer behind every entry. */
    method ExtractState() returns (owners: seq<nat>)
      ensures owners == StateOwners(layers)
    {
      owners := [];
      for k := 0 to |layers|
        invariant owners == StateOwners(layers[..k])
      {
        assert layers[..k + 1][..k] == layers[..k];
        if layers[k].kind != OutputKind {
          owners := owners + [k];
        }
      }
      assert layers[..|layers|] == layers;
    }

    /** `SetState` (net.cc:91-95): layer j is handed entry j; the argument
      * `i` is not used. */
    method SetState(i: int) returns (calls: seq<Call>)
      ensures |calls| == |layers|
      ensures forall j :: 0 <= j < |layers| ==> calls[j] == SetStateCall(j, j)
    {
      calls := VisitAll((j: nat) => SetStateCall(j, j));
    }

    /** `ComputeLogProbability` (net.cc:124-132) is answered by the last
      * layer; on a net without layers `back()` is undefined. */
    method LogProbabilityLayer() returns (r: Outcome<nat>)
      ensures r.IsFatal() <==> layers == []
      ensures r.Done? ==> r.value == |layers| - 1
    {
      if layers == [] {
        return Fatal("no layers");
      }
      r := Done(|layers| - 1);
    }

    /** `RandomizeWeights` (net.cc:97-100): every layer draws its weights
      * in order; `drawn` is what they draw. */
    method RandomizeWeights(drawn: seq<seq<seq<real>>>) returns (calls: seq<Call>)
      modifies this
      ensures weights == drawn
      ensures |calls| == |layers| && forall k :: 0 <= k < |layers| ==> calls[k] == RandomizeCall(k)
      ensures Header() == old(Header()) && momentum == old(momentum)
      ensures layers == old(layers) && outputDimension == old(outputDimension)
    {
      calls := VisitAll((k: nat) => RandomizeCall(k));
      weights := drawn;
    }

    /** What a checkpoint of the net holds. */
    function Snapshot(): Checkpoint
      reads this
    {
      Checkpoint(epoch, learningRate, bestPerplexity, weights)
    }

    /** The three stored scalars. */
    function Header(): (int, real, real)
      reads this
    {
      (epoch, learningRate, bestPerplexity)
    }

    /** `Write(output_stream)` (net.cc:113-122): the header, then the
      * layers' arrays in layer order. The momentum is not written. */
    method Write() returns (cp: Checkpoint)
      ensures cp.epoch == epoch && cp.learningRate == learningRate && cp.bestPerplexity == bestPerplexity
      ensures cp.layers == weights
    {
      cp := Checkpoint(epoch, learningRate, bestPerplexity, weights);
    }

    /** `Read(input_stream)` (net.cc:102-111): the header fields and the
      * layers' arrays are restored; the momentum and the topology stay. */
    method Read(cp: Checkpoint)
      modifies this
      ensures epoch == cp.epoch && learningRate == cp.learningRate && bestPerplexity == cp.bestPerplexity
      ensures weights == cp.layers
      ensures momentum == old(momentum) && layers == old(layers) && outputDimension == old(outputDimension)
    {
      epoch := cp.epoch;
      learningRate := cp.learningRate;
      bestPerplexity := cp.bestPerplexity;
      weights := cp.layers;
    }

    /** `Write(file_name)` (net.cc:265-274). */
    method WriteFile(fs: Files, name: string) returns (after: Files)
      ensures after == Saved(fs, name, Snapshot())
    {
      var cp := Write();
      after := Saved(fs, name, cp);
    }

    /** `Read(file_name)` (net.cc:257-263). */
    method ReadFile(fs: Files, name: string) returns (r: Outcome<()>)
      modifies this
      ensures r.IsFatal() <==> name !in fs
      ensures r.IsFatal() ==> unchanged(this)
      ensures r.Done? ==> Snapshot() == fs[name]
      ensures momentum == old(momentum) && layers == old(layers) && outputDimension == old(outputDimension)
    {
      var cp := Loaded(fs, name);
      if cp.Fatal? {
        return Fatal(cp.reason);
      }
      Read(cp.value);
      r := Done(());
    }

    /** `BuildNetworkAndRandomize` (net.h:97-103): build, then randomize
      * every layer in order. */
    method BuildNetworkAndRandomize(config: string, useBias: bool, drawn: seq<seq<seq<real>>>) returns (r: Outcome<seq<Call>>)
      requires setting.vocab.WellFormed()
      modifies this
      ensures r.IsFatal() <==> Topology(setting, config, useBias, old(outputDimension)).IsFatal()
      ensures r.Done? ==> layers == old(layers) + Topology(setting, config, useBias, old(outputDimension)).value
      ensures r.Done? ==> weights == drawn
      ensures r.Done? ==> |r.value| == |layers| && forall k :: 0 <= k < |layers| ==> r.value[k] == RandomizeCall(k)
    {
      var built := BuildNetworkLayers(config, useBias);
      if built.Fatal? {
        return Fatal(built.reason);
      }
      var calls := RandomizeWeights(drawn);
      r := Done(calls);
    }

    /** `BuildNetworkAndLoad` (net.h:105-114): build from `config`, then read
      * the checkpoint of the same name: the topology string is the file name. */
    method BuildNetworkAndLoad(fs: Files, config: string, useBias: bool) returns (r: Outcome<()>)
      requires setting.vocab.WellFormed()
      modifies this
      ensures r.IsFatal() <==> Topology(setting, config, useBias, old(outputDimension)).IsFatal() || config !in fs
      ensures r.Done? ==> layers == old(layers) + Topology(setting, config, useBias, old(outputDimension)).value
      ensures r.Done? ==> Snapshot() == fs[config]
      ensures momentum == old(momentum)
    {
      var built := BuildNetworkLayers(config, useBias);
      if built.Fatal? {
        return Fatal(built.reason);
      }
      r := ReadFile(fs, config);
    }

    // The scalar accessors (net.h:116-146).

    method SetEpoch(e: int)
      modifies this
      ensures epoch == e && learningRate == old(learningRate) && momentum == old(momentum)
      ensures bestPerplexity == old(bestPerplexity) && layers == old(layers) && outputDimension == old(outputDimension)
      ensures weights == old(weights)
    {
      epoch := e;
    }

    method SetLearningRate(lr: real)
      modifies this
      ensures learningRate == lr && epoch == old(epoch) && momentum == old(momentum)
      ensures bestPerplexity == old(bestPerplexity) && layers == old(layers) && outputDimension == old(outputDimension)
      ensures weights == old(weights)
    {
      learningRate := lr;
    }

    method SetMomentum(m: real)
      modifies this
      ensures momentum == m && epoch == old(epoch) && learningRate == old(learningRate)
      ensures bestPerplexity == old(bestPerplexity) && layers == old(layers) && outputDimension == old(outputDimension)
      ensures weights == old(weights)
    {
      momentum := m;
    }

    method SetBestPerplexity(p: real)
      modifies this
      ensures bestPerplexity == p && epoch == old(epoch) && learningRate == old(learningRate)
      ensures momentum == old(momentum) && layers == old(layers) && outputDimension == old(outputDimension)
      ensures weights == old(weights)
    {
      bestPerplexity := p;
    }
  }

  lemma {:induction false} LayersFromLength(st: Setting, tokens: seq<string>, n: nat, useBias: bool, current: nat)
    requires st.vocab.WellFormed() && n <= |tokens|
    requires LayersFrom(st, tokens, n, useBias, current).Done?
    ensures |LayersFrom(st, tokens, n, useBias, current).value| == n
  {
    if n > 0 {
      LayersFromLength(st, tokens, n - 1, useBias, current);
    }
  }

  /** Once a prefix fails, the whole token list fails. */
  lemma {:induction false} LayersFromFatal(st: Setting, tokens: seq<string>, n: nat, useBias: bool, current: nat)
    requires st.vocab.WellFormed() && n <= |tokens|
    requires LayersFrom(st, tokens, n, useBias, current).IsFatal()
    ensures LayersFrom(st, tokens, |tokens|, useBias, current).IsFatal()
    decreases |tokens| - n
  {
    if n < |tokens| {
      LayersFromFatal(st, tokens, n + 1, useBias, current);
    }
  }
}
