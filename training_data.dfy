/**
  The name-to-training-sequence encoding of the character-level name model
  (`format_training_data` and its inner `get_substrings`): every name yields
  all its prefixes followed by the stop character, each prefix keeps its last
  `str_len + 1` characters and is left-padded with the blank character, each
  character is replaced by its index in the alphabet, and the rows are split
  into inputs (all but the last code) and targets (all but the first). The
  alphabet and `str_len` are parameters; conversion to tensors and one-hot
  encoding are not modelled.
 */
module TrainingData {
  import opened Values

  const STOP: char := '+'
  const BLANK: char := '*'

  /** `get_substrings(name)`: the prefixes of `name + "+"`, shortest first. */
  function GetSubstrings(name: string): (r: seq<string>)
    ensures |r| == |name| + 1
    ensures forall j :: 0 <= j < |r| ==> |r[j]| == j + 1 && r[j] <= name + [STOP]
    ensures r[|name|] == name + [STOP]
  {
    var s := name + [STOP];
    seq(|s|, j requires 0 <= j < |s| => s[..j + 1])
  }

  /** `[item for sublist in xss for item in sublist]`. */
  function Flatten(xss: seq<seq<string>>): seq<string>
  {
    if |xss| == 0 then [] else xss[0] + Flatten(xss[1..])
  }

  /** The prefixes of every name, name after name. */
  function Expand(names: seq<string>): seq<string>
  {
    Flatten(seq(|names|, i requires 0 <= i < |names| => GetSubstrings(names[i])))
  }

  /** How many prefixes the names yield: one per character plus the stop. */
  function PrefixCount(names: seq<string>): nat
  {
    if |names| == 0 then 0 else |names[0]| + 1 + PrefixCount(names[1..])
  }

  /** `n * "*"` for an integer count: empty when `n` is not positive. */
  function Repeat(c: char, n: int): (r: string)
    ensures |r| == if n <= 0 then 0 else n
    ensures forall i :: 0 <= i < |r| ==> r[i] == c
    decreases n
  {
    if n <= 0 then [] else [c] + Repeat(c, n - 1)
  }

  /** One padded row: `name[-(str_len + 1):]`, then as many blanks in front as
      bring it to `str_len + 1` characters. */
  function PadRow(p: string, strLen: int): string
  {
    var tail := SliceFrom(p, -(strLen + 1));
    Repeat(BLANK, strLen + 1 - |tail|) + tail
  }

  /** Every padded prefix, in the order of `Expand`. */
  function Padded(names: seq<string>, strLen: int): seq<string>
  {
    var expanded := Expand(names);
    seq(|expanded|, i requires 0 <= i < |expanded| => PadRow(expanded[i], strLen))
  }

  /** `alphabet.index(c)`: the first position of `c`, or nothing when the
      alphabet lacks it (Python raises ValueError then). */
  function IndexOf(alphabet: seq<char>, c: char): (r: Option<nat>)
    ensures r.Some? ==> r.value < |alphabet| && alphabet[r.value] == c
    ensures r.Some? ==> forall j :: 0 <= j < r.value ==> alphabet[j] != c
    ensures r.None? <==> c !in alphabet
  {
    if |alphabet| == 0 then None
    else if alphabet[0] == c then Some(0)
    else match IndexOf(alphabet[1..], c)
      case None => None
      case Some(k) => Some(k + 1)
  }

  /** The codes of one row; ValueError at the first character outside the
      alphabet. */
  function EncodeRow(row: string, alphabet: seq<char>): (r: Result<seq<nat>>)
    ensures r.Ok? ==> |r.value| == |row|
    ensures r.Ok? ==> forall t :: 0 <= t < |row| ==> IndexOf(alphabet, row[t]) == Some(r.value[t])
    ensures r.Err? ==> r.error == ValueError
    ensures r.Ok? <==> forall t :: 0 <= t < |row| ==> row[t] in alphabet
  {
    if |row| == 0 then Ok([])
    else match IndexOf(alphabet, row[0])
      case None => Err(ValueError)
      case Some(code) =>
        match EncodeRow(row[1..], alphabet)
        case Err(e) => Err(e)
        case Ok(rest) =>
          assert forall t :: 1 <= t < |row| ==> row[t] == row[1..][t - 1];
          Ok([code] + rest)
  }

  /** The codes of every row; the first failing row fails the whole list. */
  function EncodeRows(rows: seq<string>, alphabet: seq<char>): (r: Result<seq<seq<nat>>>)
    ensures r.Ok? ==> |r.value| == |rows|
    ensures r.Ok? ==> forall i :: 0 <= i < |rows| ==> EncodeRow(rows[i], alphabet) == Ok(r.value[i])
    ensures r.Err? ==> r.error == ValueError
    ensures r.Ok? <==> forall i :: 0 <= i < |rows| ==> EncodeRow(rows[i], alphabet).Ok?
  {
    if |rows| == 0 then Ok([])
    else match EncodeRow(rows[0], alphabet)
      case Err(e) => Err(e)
      case Ok(first) =>
        match EncodeRows(rows[1..], alphabet)
        case Err(e) => Err(e)
        case Ok(rest) =>
          assert forall i :: 1 <= i < |rows| ==> rows[i] == rows[1..][i - 1];
          Ok([first] + rest)
  }

  /** The training inputs (before one-hot encoding) and targets. */
  datatype TrainingSet = TrainingSet(x: seq<seq<nat>>, y: seq<seq<nat>>)

  /** `format_training_data(pet_names)`, up to the tensors: `x` holds each
      encoded row without its last code, `y` each row without its first. */
  function FormatTrainingData(names: seq<string>, alphabet: seq<char>, strLen: int): Result<TrainingSet>
  {
    match EncodeRows(Padded(names, strLen), alphabet)
    case Err(e) => Err(e)
    case Ok(numeric) =>
      Ok(TrainingSet(
        seq(|numeric|, i requires 0 <= i < |numeric| => SliceTo(numeric[i], -1)),
        seq(|numeric|, i requires 0 <= i < |numeric| => SliceFrom(numeric[i], 1))))
  }

  // ---------------------------------------------------------------------
  // Properties

  /** Flattening keeps every prefix: the total is one per character plus one
      stop per name. */
  lemma {:induction false} ExpandLength(names: seq<string>)
    ensures |Expand(names)| == PrefixCount(names)
  {
    if |names| > 0 {
      ExpandLength(names[1..]);
      assert seq(|names|, i requires 0 <= i < |names| => GetSubstrings(names[i]))[1..]
          == seq(|names[1..]|, i requires 0 <= i < |names[1..]| => GetSubstrings(names[1..][i]));
    }
  }

  /** Flattening keeps name order and prefix order: the prefixes of the first
      name come first, then those of the rest. */
  lemma ExpandCons(names: seq<string>)
    requires |names| > 0
    ensures Expand(names) == GetSubstrings(names[0]) + Expand(names[1..])
  {
    assert seq(|names|, i requires 0 <= i < |names| => GetSubstrings(names[i]))[1..]
        == seq(|names[1..]|, i requires 0 <= i < |names[1..]| => GetSubstrings(names[1..][i]));
  }

  /** Position by position: the j-th prefix of name i sits right after the
      prefixes of the names before it. */
  lemma {:induction false} ExpandAt(names: seq<string>, i: nat, j: nat)
    requires i < |names| && j <= |names[i]|
    ensures PrefixCount(names[..i]) + j < |Expand(names)|
    ensures Expand(names)[PrefixCount(names[..i]) + j] == (names[i] + [STOP])[..j + 1]
  {
    ExpandCons(names);
    ExpandLength(names[1..]);
    if i == 0 {
      assert names[..0] == [];
    } else {
      ExpandAt(names[1..], i - 1, j);
      assert names[1..][..i - 1] == names[..i][1..];
      assert names[1..][i - 1] == names[i];
    }
  }

  /** For `str_len >= 0`, a padded row has exactly `str_len + 1` characters:
      `k` blanks and then the last `m` characters of the prefix, where `m` is
      the smaller of the prefix length and `str_len + 1`. */
  lemma PadRowShape(p: string, strLen: int)
    requires strLen >= 0
    ensures var m := if |p| < strLen + 1 then |p| else strLen + 1;
      && |PadRow(p, strLen)| == strLen + 1
      && PadRow(p, strLen) == Repeat(BLANK, strLen + 1 - m) + p[|p| - m..]
  {
  }

  /** A character of the alphabet encodes to a code that decodes back to it. */
  lemma EncodeRowRoundTrip(row: string, alphabet: seq<char>)
    requires EncodeRow(row, alphabet).Ok?
    ensures var codes := EncodeRow(row, alphabet).value;
      forall t :: 0 <= t < |row| ==> codes[t] < |alphabet| && alphabet[codes[t]] == row[t]
  {
    var codes := EncodeRow(row, alphabet).value;
    forall t | 0 <= t < |row|
      ensures codes[t] < |alphabet| && alphabet[codes[t]] == row[t]
    {
      assert IndexOf(alphabet, row[t]) == Some(codes[t]);
    }
  }

  /** `e` is the prefix of length `j + 1` of `n + "+"`. */
  ghost predicate PrefixOf(n: string, j: int, e: string)
  {
    0 <= j <= |n| && e == (n + [STOP])[..j + 1]
  }

  /** Every character of a padded row is a blank, a character of some name,
      or the stop character. */
  lemma PaddedCharacters(names: seq<string>, strLen: int, i: nat, t: nat)
    requires i < |Padded(names, strLen)| && t < |Padded(names, strLen)[i]|
    ensures var c := Padded(names, strLen)[i][t];
      c == BLANK || c == STOP || exists n :: n in names && c in n
  {
    var row := Padded(names, strLen)[i];
    var e := Expand(names)[i];
    var start := ClampIndex(|e|, -(strLen + 1));
    var tail := e[start..];
    var pad := Repeat(BLANK, strLen + 1 - |tail|);
    assert row == pad + tail;
    if t >= |pad| {
      var w := start + (t - |pad|);
      assert row[t] == e[w];
      ExpandMember(names, i);
      var n, j :| n in names && PrefixOf(n, j, e);
      assert e[w] == (n + [STOP])[w];
      if w < |n| {
        assert (n + [STOP])[w] == n[w];
      } else {
        assert (n + [STOP])[w] == STOP;
      }
    }
  }

  /** Each expanded entry is a prefix, stop included, of one of the names. */
  lemma {:induction false} ExpandMember(names: seq<string>, i: nat)
    requires i < |Expand(names)|
    ensures exists n, j :: n in names && PrefixOf(n, j, Expand(names)[i])
  {
    ExpandCons(names);
    var first := GetSubstrings(names[0]);
    if i < |first| {
      assert PrefixOf(names[0], i, Expand(names)[i]);
    } else {
      ExpandMember(names[1..], i - |first|);
      var n, j :| n in names[1..] && PrefixOf(n, j, Expand(names[1..])[i - |first|]);
      assert n in names;
      assert PrefixOf(n, j, Expand(names)[i]);
    }
  }

  /** The encoding succeeds whenever the alphabet holds the blank, the stop and
      every character of every name. */
  lemma FormatSucceeds(names: seq<string>, alphabet: seq<char>, strLen: int)
    requires BLANK in alphabet && STOP in alphabet
    requires forall n, c :: n in names && c in n ==> c in alphabet
    ensures FormatTrainingData(names, alphabet, strLen).Ok?
  {
    var rows := Padded(names, strLen);
    forall i | 0 <= i < |rows|
      ensures EncodeRow(rows[i], alphabet).Ok?
    {
      forall t | 0 <= t < |rows[i]|
        ensures rows[i][t] in alphabet
      {
        PaddedCharacters(names, strLen, i, t);
      }
    }
  }

  /** A character outside the alphabet makes the encoding fail, as
      `list.index` raises: with `str_len >= 0` every character of a name is
      the last one of some prefix and survives the truncation. */
  lemma FormatFailsOutsideAlphabet(names: seq<string>, alphabet: seq<char>, strLen: int, i: nat, u: nat)
    requires strLen >= 0
    requires i < |names| && u < |names[i]| && names[i][u] !in alphabet
    ensures FormatTrainingData(names, alphabet, strLen) == Err(ValueError)
  {
    var at := PrefixCount(names[..i]) + u;
    ExpandAt(names, i, u);
    var e := Expand(names)[at];
    assert e == (names[i] + [STOP])[..u + 1];
    var row := Padded(names, strLen)[at];
    PadRowShape(e, strLen);
    assert row[|row| - 1] == e[|e| - 1] == names[i][u];
    assert !EncodeRow(row, alphabet).Ok?;
  }

  /** Inputs and targets: one row each per prefix, `str_len` codes per row,
      and the targets are the inputs shifted by one. */
  lemma FormatShape(names: seq<string>, alphabet: seq<char>, strLen: int)
    requires strLen >= 0
    requires FormatTrainingData(names, alphabet, strLen).Ok?
    ensures var ts := FormatTrainingData(names, alphabet, strLen).value;
      && |ts.x| == |ts.y| == PrefixCount(names)
      && (forall i :: 0 <= i < |ts.x| ==> |ts.x[i]| == strLen && |ts.y[i]| == strLen)
      && (forall i, t :: 0 <= i < |ts.x| && 0 <= t < strLen - 1 ==> ts.y[i][t] == ts.x[i][t + 1])
  {
    ExpandLength(names);
    var rows := Padded(names, strLen);
    var numeric := EncodeRows(rows, alphabet).value;
    forall i | 0 <= i < |rows| ensures |numeric[i]| == strLen + 1 {
      PadRowShape(Expand(names)[i], strLen);
    }
  }

  /** Decoding the codes gives back the padded rows: `x` is each row without
      its last character, `y` each row without its first. */
  lemma FormatDecodes(names: seq<string>, alphabet: seq<char>, strLen: int, i: nat, t: nat)
    requires strLen >= 0
    requires FormatTrainingData(names, alphabet, strLen).Ok?
    requires i < |Padded(names, strLen)| && t < strLen
    ensures var ts := FormatTrainingData(names, alphabet, strLen).value;
      var row := Padded(names, strLen)[i];
      && |row| == strLen + 1
      && ts.x[i][t] < |alphabet| && alphabet[ts.x[i][t]] == row[t]
      && ts.y[i][t] < |alphabet| && alphabet[ts.y[i][t]] == row[t + 1]
  {
    var rows := Padded(names, strLen);
    PadRowShape(Expand(names)[i], strLen);
    EncodeRowRoundTrip(rows[i], alphabet);
  }

  /** With the blank first in the alphabet, as in `"*+abc..."`, the padding
      of a prefix shorter than `str_len + 1` encodes to zeros. */
  lemma PaddingEncodesZero(names: seq<string>, alphabet: seq<char>, strLen: int, i: nat, t: nat)
    requires strLen >= 0 && |alphabet| > 0 && alphabet[0] == BLANK
    requires FormatTrainingData(names, alphabet, strLen).Ok?
    requires i < |Expand(names)| && t + |Expand(names)[i]| < strLen + 1
    ensures var x := FormatTrainingData(names, alphabet, strLen).value.x;
      i < |x| && t < |x[i]| && x[i][t] == 0
  {
    FormatShape(names, alphabet, strLen);
    ExpandLength(names);
    ExpandMember(names, i);
    var rows := Padded(names, strLen);
    var e := Expand(names)[i];
    PadRowShape(e, strLen);
    assert rows[i][t] == BLANK;
    var numeric := EncodeRows(rows, alphabet).value;
    assert IndexOf(alphabet, rows[i][t]) == Some(numeric[i][t]);
  }
}
