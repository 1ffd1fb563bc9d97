/** The errors the embedding model and pipeline throw, and the text of their
    messages. Every error in the source is a plain `Error` carrying a message;
    the datatype names each message the source writes, and `Thrown` stands for
    an error raised by a foreign collaborator (tokenizer, inference runtime,
    model loader) that the source re-throws as it is. */
module Errors {
  import opened Wrappers

  datatype Error =
    | SessionUndefined
    | EmptyTokens
    | NoEmbeddingOutput
    | InvalidDimensions(dims: seq<nat>)
    | TokenizerUndefined
    | EmptyInputIds
    | Thrown(message: string)

  const DimensionsPrefix: string := "Invalid embedding dimensions: ["

  /** The message of the `Error` object the source throws. A foreign error
      keeps its own message; the invalid-dimensions message reports the
      dimension list it was built from. */
  function Message(e: Error): (m: string)
    ensures e.Thrown? ==> m == e.message
    ensures !e.Thrown? ==> |m| > 0
    ensures e.InvalidDimensions? ==> DimsInMessage(m) == Some(e.dims)
  {
    match e
    case SessionUndefined => "Session is undefined"
    case EmptyTokens => "Input tokens array cannot be empty"
    case NoEmbeddingOutput => "No embedding output found in model outputs"
    case InvalidDimensions(dims) =>
      InvalidDimensionsMessageCarriesDims(dims);
      DimensionsPrefix + Join(dims) + "]"
    case TokenizerUndefined => "Tokenizer undefined, please initialize first."
    case EmptyInputIds => "Tokenization resulted in empty input_ids"
    case Thrown(message) => message
  }

  // ---------------------------------------------------------------------------
  // Decimal rendering of a dimension list, as `dims.join(', ')` does it

  predicate IsDigit(c: char) {
    '0' <= c <= '9'
  }

  function DigitChar(d: nat): (c: char)
    requires d < 10
    ensures IsDigit(c) && (c as int) - ('0' as int) == d
  {
    ['0', '1', '2', '3', '4', '5', '6', '7', '8', '9'][d]
  }

  /** JavaScript's string form of a non-negative integer: its decimal digits,
      without leading zeros. */
  function NatToString(n: nat): (s: string)
    ensures |s| > 0 && forall i :: 0 <= i < |s| ==> IsDigit(s[i])
  {
    if n < 10 then [DigitChar(n)] else NatToString(n / 10) + [DigitChar(n % 10)]
  }

  /** `dims.join(', ')`: the elements in order, separated by a comma and a space. */
  function Join(dims: seq<nat>): (s: string)
    ensures s == "" <==> dims == []
    ensures forall i :: 0 <= i < |s| ==> IsDigit(s[i]) || s[i] == ',' || s[i] == ' '
  {
    if |dims| == 0 then ""
    else if |dims| == 1 then NatToString(dims[0])
    else NatToString(dims[0]) + ", " + Join(dims[1..])
  }

  // ---------------------------------------------------------------------------
  // Reading a dimension list back from a message: the partner of Join

  /** The value of a string of decimal digits. */
  function DigitsValue(s: string): nat
    requires forall i :: 0 <= i < |s| ==> IsDigit(s[i])
  {
    if s == [] then 0
    else
      assert IsDigit(s[|s| - 1]);
      10 * DigitsValue(s[..|s| - 1]) + ((s[|s| - 1] as int) - ('0' as int))
  }

  /** The length of the run of digits that starts `s`. */
  function DigitRun(s: string): (k: nat)
    ensures k <= |s|
    ensures forall i :: 0 <= i < k ==> IsDigit(s[i])
    ensures k < |s| ==> !IsDigit(s[k])
  {
    if s != [] && IsDigit(s[0]) then 1 + DigitRun(s[1..]) else 0
  }

  /** Parses a non-empty list of numbers separated by ", ". */
  function ParseItems(s: string): Option<seq<nat>>
    decreases |s|
  {
    var k := DigitRun(s);
    if k == 0 then None
    else
      var n := DigitsValue(s[..k]);
      var rest := s[k..];
      if rest == [] then Some([n])
      else if |rest| >= 2 && rest[..2] == ", " then
        match ParseItems(rest[2..])
        case None => None
        case Some(ns) => Some([n] + ns)
      else None
  }

  /** The dimension list an invalid-dimensions message reports, if `msg` has
      that message's form. */
  function DimsInMessage(msg: string): Option<seq<nat>> {
    var p := |DimensionsPrefix|;
    if |msg| < p + 1 || msg[..p] != DimensionsPrefix || msg[|msg| - 1] != ']' then None
    else if |msg| == p + 1 then Some([])
    else ParseItems(msg[p..|msg| - 1])
  }

  lemma {:induction false} DigitsValueOfNatToString(n: nat)
    ensures DigitsValue(NatToString(n)) == n
  {
    var s := NatToString(n);
    if n < 10 {
      assert s[..|s| - 1] == [];
    } else {
      assert s[..|s| - 1] == NatToString(n / 10);
      DigitsValueOfNatToString(n / 10);
    }
  }

  lemma {:induction false} DigitRunOfDigitsThen(d: string, t: string)
    requires forall i :: 0 <= i < |d| ==> IsDigit(d[i])
    requires t == [] || !IsDigit(t[0])
    ensures DigitRun(d + t) == |d|
  {
    if d != [] {
      assert (d + t)[1..] == d[1..] + t;
      DigitRunOfDigitsThen(d[1..], t);
    }
  }

  /** Parsing the joined list gives the list back. */
  lemma {:induction false} ParseItemsOfJoin(dims: seq<nat>)
    requires |dims| > 0
    ensures ParseItems(Join(dims)) == Some(dims)
  {
    var d := NatToString(dims[0]);
    if |dims| == 1 {
      DigitRunOfDigitsThen(d, "");
      assert d + "" == d;
      assert d[..|d|] == d && d[|d|..] == [];
      DigitsValueOfNatToString(dims[0]);
      assert Join(dims) == d && dims == [dims[0]];
    } else {
      var t := ", " + Join(dims[1..]);
      assert Join(dims) == d + t;
      DigitRunOfDigitsThen(d, t);
      assert (d + t)[..|d|] == d;
      assert (d + t)[|d|..] == t;
      assert t[..2] == ", " && t[2..] == Join(dims[1..]);
      DigitsValueOfNatToString(dims[0]);
      ParseItemsOfJoin(dims[1..]);
      assert [dims[0]] + dims[1..] == dims;
    }
  }

  /** The invalid-dimensions message holds the dimension list exactly: it can
      be read back from the message text. */
  lemma InvalidDimensionsMessageCarriesDims(dims: seq<nat>)
    ensures DimsInMessage(DimensionsPrefix + Join(dims) + "]") == Some(dims)
  {
    var msg := DimensionsPrefix + Join(dims) + "]";
    var p := |DimensionsPrefix|;
    assert msg[..p] == DimensionsPrefix;
    assert msg[p..|msg| - 1] == Join(dims);
    if |dims| > 0 {
      ParseItemsOfJoin(dims);
    }
  }
}
