/** The token-scanning corruptions of the noise library: phonetic errors,
    OCR errors and keyboard typos. Each walks a string left to right,
    drawing from one numpy generator that is shared by every value of the
    column, so a value's draws start where the previous value's ended.
    The generator is modelled by its call counter (Randomness.Rng). */
module Scans {
  import opened Tables
  import opened Randomness
  import ColumnNoise

  /** A corruption table: a token and the strings it may be mistaken for. */
  type Table = map<string, seq<string>>

  /** Token lengths tried by phonetic_corrupt and by ocr_corrupt, longest
      first. */
  const PhoneticLengths: seq<nat> := [7, 6, 5, 4, 3, 2, 1]
  const OcrLengths: seq<nat> := [3, 2, 1]

  /** The probability that a mistyped character keeps the original after it. */
  const IncludeTokenProbability: real := 0.1

  predicate Positive(lengths: seq<nat>)
  {
    forall m :: 0 <= m < |lengths| ==> lengths[m] >= 1
  }

  /** What the scan does at one position: no token was replaced, or the
      token of the given length was replaced by `sub`; `cursor` is the
      generator's call counter afterwards. */
  datatype Hit = Miss(cursor: nat) | Hit(sub: string, length: nat, cursor: nat)

  /** The token of length L at position i, as Python slices it (clamped at
      the end of the string). */
  function Token(truth: string, i: nat, L: nat): string
  {
    Slice(truth, i, i + L)
  }

  /** The lengths are tried in order; every token found in the table costs
      one call of uniform, and the first whose draw is below pr is replaced
      by the string at the next call of choice over its options. numpy
      raises ValueError for an empty option list. */
  function FirstHit(truth: string, i: nat, lengths: seq<nat>, pr: real, table: Table, rng: Rng, k: nat): (h: Result<Hit>)
    requires rng.Valid()
    ensures h.Ok? && h.value.Miss? ==> h.value.cursor >= k
    ensures h.Ok? && h.value.Hit? ==> h.value.cursor >= k + 2 && h.value.length in lengths
    decreases |lengths|
  {
    if lengths == [] then Ok(Miss(k))
    else
      var token := Token(truth, i, lengths[0]);
      if token in table then
        if rng.uniform(k) < pr then
          var options := table[token];
          if options == [] then Err(ValueError("a cannot be empty unless no samples are taken"))
          else Ok(Hit(options[rng.pick(k + 1, |options|)], lengths[0], k + 2))
        else FirstHit(truth, i, lengths[1..], pr, table, rng, k + 1)
      else FirstHit(truth, i, lengths[1..], pr, table, rng, k)
  }

  /** A replacement is always one of the options listed for the token it
      replaces. */
  lemma {:induction false} FirstHitFromTable(truth: string, i: nat, lengths: seq<nat>, pr: real, table: Table, rng: Rng, k: nat)
    requires rng.Valid()
    ensures var h := FirstHit(truth, i, lengths, pr, table, rng, k);
      h.Ok? && h.value.Hit? ==>
        && Token(truth, i, h.value.length) in table
        && h.value.sub in table[Token(truth, i, h.value.length)]
    decreases |lengths|
  {
    if lengths != [] {
      FirstHitFromTable(truth, i, lengths[1..], pr, table, rng, k);
      FirstHitFromTable(truth, i, lengths[1..], pr, table, rng, k + 1);
    }
  }

  /** FirstHit over the lengths from t on, one length unfolded. */
  lemma FirstHitAt(truth: string, i: nat, lengths: seq<nat>, t: nat, pr: real, table: Table, rng: Rng, k: nat)
    requires rng.Valid() && t < |lengths|
    ensures var token := Token(truth, i, lengths[t]);
      FirstHit(truth, i, lengths[t..], pr, table, rng, k) ==
      if token !in table then FirstHit(truth, i, lengths[t + 1..], pr, table, rng, k)
      else if rng.uniform(k) >= pr then FirstHit(truth, i, lengths[t + 1..], pr, table, rng, k + 1)
      else if table[token] == [] then Err(ValueError("a cannot be empty unless no samples are taken"))
      else Ok(Hit(table[token][rng.pick(k + 1, |table[token]|)], lengths[t], k + 2))
  {
    assert lengths[t..][0] == lengths[t];
    assert lengths[t..][1..] == lengths[t + 1..];
  }

  /** The corrupted remainder of `truth` from position i on, and the call
      counter after it: a miss copies one character, a hit emits the
      replacement and skips the token's length. */
  function Corrupt(truth: string, i: nat, lengths: seq<nat>, pr: real, table: Table, rng: Rng, k: nat): (r: Result<(string, nat)>)
    requires rng.Valid() && Positive(lengths)
    ensures r.Ok? ==> r.value.1 >= k
    decreases |truth| - i
  {
    if i >= |truth| then Ok(("", k))
    else
      var h :- FirstHit(truth, i, lengths, pr, table, rng, k);
      assert h.Hit? ==> h.length >= 1 by {
        if h.Hit? { var m :| 0 <= m < |lengths| && lengths[m] == h.length; }
      }
      var rest :- Corrupt(truth, Next(i, h), lengths, pr, table, rng, h.cursor);
      Ok((Piece(truth, i, h) + rest.0, rest.1))
  }

  /** What one position emits: the character itself on a miss, the
      replacement on a hit. */
  function Piece(truth: string, i: nat, h: Hit): string
    requires i < |truth|
  {
    if h.Miss? then [truth[i]] else h.sub
  }

  /** Where the scan goes on after one position. */
  function Next(i: nat, h: Hit): nat
  {
    if h.Miss? then i + 1 else i + h.length
  }

  /** `prefix` in front of the string of a result. */
  function Prefixed(prefix: string, r: Result<(string, nat)>): Result<(string, nat)>
  {
    if r.Err? then r else Ok((prefix + r.value.0, r.value.1))
  }

  lemma PrefixedAssoc(a: string, b: string, r: Result<(string, nat)>)
    ensures Prefixed(a, Prefixed(b, r)) == Prefixed(a + b, r)
  {
    if r.Ok? {
      assert a + (b + r.value.0) == (a + b) + r.value.0;
    }
  }

  lemma PrefixedEmpty(r: Result<(string, nat)>)
    ensures Prefixed("", r) == r
  {
    if r.Ok? {
      assert "" + r.value.0 == r.value.0;
    }
  }

  /** One position of phonetic_corrupt: the loop over the token lengths.
      Every length is visited, but once a token has been replaced the
      `not error_introduced` guard keeps the remaining lengths from
      drawing, so the loop does what FirstHit does, which stops at the
      first replacement. */
  method PhoneticAt(truth: string, i0: nat, lengths: seq<nat>, pr: real, table: Table, rng: Rng, k0: nat)
    returns (h: Result<Hit>)
    requires rng.Valid() && Positive(lengths)
    ensures h == FirstHit(truth, i0, lengths, pr, table, rng, k0)
  {
    var i := i0;
    var k := k0;
    var err := "";
    var errorIntroduced := false;
    for t := 0 to |lengths|
      invariant !errorIntroduced ==>
        (&& i == i0 && err == ""
         && FirstHit(truth, i0, lengths, pr, table, rng, k0) ==
            FirstHit(truth, i0, lengths[t..], pr, table, rng, k))
      invariant errorIntroduced ==>
        i > i0 && FirstHit(truth, i0, lengths, pr, table, rng, k0) == Ok(Hit(err, i - i0, k))
    {
      var tokenLength := lengths[t];
      var token := Token(truth, i, tokenLength);
      if !errorIntroduced {
        FirstHitAt(truth, i0, lengths, t, pr, table, rng, k);
      }
      if token in table && !errorIntroduced {
        var u := rng.uniform(k);
        k := k + 1;
        if u < pr {
          var options := table[token];
          if options == [] {
            return Err(ValueError("a cannot be empty unless no samples are taken"));
          }
          var sub := options[rng.pick(k, |options|)];
          assert err + sub == sub;
          err := err + sub;
          k := k + 1;
          i := i + tokenLength;
          errorIntroduced := true;
        }
      }
    }
    if errorIntroduced {
      h := Ok(Hit(err, i - i0, k));
    } else {
      h := Ok(Miss(k));
    }
  }

  /** One position of ocr_corrupt: the loop over the lengths 3, 2, 1, left
      with `break` at the first replacement. */
  method OcrAt(truth: string, i0: nat, lengths: seq<nat>, pr: real, table: Table, rng: Rng, k0: nat)
    returns (h: Result<Hit>)
    requires rng.Valid()
    ensures h == FirstHit(truth, i0, lengths, pr, table, rng, k0)
  {
    var k := k0;
    var t := 0;
    while t < |lengths|
      invariant 0 <= t <= |lengths|
      invariant FirstHit(truth, i0, lengths, pr, table, rng, k0) == FirstHit(truth, i0, lengths[t..], pr, table, rng, k)
    {
      var tokenLength := lengths[t];
      var token := Token(truth, i0, tokenLength);
      FirstHitAt(truth, i0, lengths, t, pr, table, rng, k);
      if token in table {
        var u := rng.uniform(k);
        k := k + 1;
        if u < pr {
          var options := table[token];
          if options == [] {
            return Err(ValueError("a cannot be empty unless no samples are taken"));
          }
          var sub := options[rng.pick(k, |options|)];
          return Ok(Hit(sub, tokenLength, k + 1));
        }
      }
      t := t + 1;
    }
    h := Ok(Miss(k));
  }

  /** The scan of one value by phonetic_corrupt and ocr_corrupt: copy a
      character where no token was replaced, otherwise emit the replacement
      and skip the token. */
  method CorruptByLengths(phonetic: bool, truth: string, lengths: seq<nat>, pr: real, table: Table, rng: Rng, k0: nat)
    returns (r: Result<(string, nat)>)
    requires rng.Valid() && Positive(lengths)
    ensures r == Corrupt(truth, 0, lengths, pr, table, rng, k0)
  {
    var err := "";
    var i: nat := 0;
    var k := k0;
    PrefixedEmpty(Corrupt(truth, 0, lengths, pr, table, rng, k0));
    while i < |truth|
      invariant Corrupt(truth, 0, lengths, pr, table, rng, k0) == Prefixed(err, Corrupt(truth, i, lengths, pr, table, rng, k))
      decreases |truth| - i
    {
      var h;
      if phonetic {
        h := PhoneticAt(truth, i, lengths, pr, table, rng, k);
      } else {
        h := OcrAt(truth, i, lengths, pr, table, rng, k);
      }
      CorruptAt(truth, i, lengths, pr, table, rng, k);
      if h.Err? {
        return Err(h.error);
      }
      var step := h.value;
      // a miss copies truth[i:i+1], a hit emits the replacement
      var piece := if step.Miss? then truth[i..i + 1] else step.sub;
      assert piece == Piece(truth, i, step);
      PrefixedAssoc(err, piece, Corrupt(truth, Next(i, step), lengths, pr, table, rng, step.cursor));
      err := err + piece;
      i := Next(i, step);
      k := step.cursor;
    }
    assert err + "" == err;
    r := Ok((err, k));
  }

  /** Corrupt at a position inside the string, one step unfolded. */
  lemma CorruptAt(truth: string, i: nat, lengths: seq<nat>, pr: real, table: Table, rng: Rng, k: nat)
    requires rng.Valid() && Positive(lengths) && i < |truth|
    ensures var h := FirstHit(truth, i, lengths, pr, table, rng, k);
      && (h.Err? ==> Corrupt(truth, i, lengths, pr, table, rng, k) == Err(h.error))
      && (h.Ok? ==>
            Next(i, h.value) > i &&
            Corrupt(truth, i, lengths, pr, table, rng, k) ==
            Prefixed(Piece(truth, i, h.value), Corrupt(truth, Next(i, h.value), lengths, pr, table, rng, h.value.cursor)))
  {
    var h := FirstHit(truth, i, lengths, pr, table, rng, k);
    if h.Ok? && h.value.Hit? {
      var m :| 0 <= m < |lengths| && lengths[m] == h.value.length;
    }
    if h.Ok? {
      var rest := Corrupt(truth, Next(i, h.value), lengths, pr, table, rng, h.value.cursor);
      if rest.Ok? {
        assert Corrupt(truth, i, lengths, pr, table, rng, k) == Ok((Piece(truth, i, h.value) + rest.value.0, rest.value.1));
      }
    }
  }

  /** One position of keyboard_corrupt: a character in the table draws
      (call k); below pr it is mistyped as the next choice (call k+1), and
      a third draw (call k+2) below the include probability appends the
      original character. */
  function KeyStep(c: char, pr: real, addlPr: real, table: Table, rng: Rng, k: nat): (r: Result<(string, nat)>)
    requires rng.Valid()
    ensures r.Ok? ==> r.value.1 >= k
  {
    var token := [c];
    var after: nat := k + 3;
    if token !in table then Ok((token, k))
    else if !(rng.uniform(k) < pr) then Ok((token, k + 1))
    else
      var options := table[token];
      var empty: Result<(string, nat)> := Err(ValueError("a cannot be empty unless no samples are taken"));
      if options == [] then empty
      else
        var sub := options[rng.pick(k + 1, |options|)];
        if rng.uniform(k + 2) < addlPr then Ok((sub + token, after)) else Ok((sub, after))
  }

  /** The keyboard-corrupted remainder of `truth` from position i on. */
  function KeyCorrupt(truth: string, i: nat, pr: real, addlPr: real, table: Table, rng: Rng, k: nat): (r: Result<(string, nat)>)
    requires rng.Valid()
    ensures r.Ok? ==> r.value.1 >= k
    decreases |truth| - i
  {
    if i >= |truth| then Ok(("", k))
    else
      var step :- KeyStep(truth[i], pr, addlPr, table, rng, k);
      var rest :- KeyCorrupt(truth, i + 1, pr, addlPr, table, rng, step.1);
      Ok((step.0 + rest.0, rest.1))
  }

  /** The body of keyboard_corrupt's loop at one position. */
  method KeyAt(truth: string, i: nat, pr: real, addlPr: real, table: Table, rng: Rng, k0: nat)
    returns (r: Result<(string, nat)>)
    requires rng.Valid() && i < |truth|
    ensures r == KeyStep(truth[i], pr, addlPr, table, rng, k0)
  {
    var err := "";
    var k := k0;
    var errorIntroduced := false;
    var token := truth[i..i + 1];
    assert token == [truth[i]];
    if token in table && !errorIntroduced {
      var u := rng.uniform(k);
      k := k + 1;
      if u < pr {
        var options := table[token];
        if options == [] {
          return Err(ValueError("a cannot be empty unless no samples are taken"));
        }
        err := err + options[rng.pick(k, |options|)];
        assert err == options[rng.pick(k, |options|)];
        k := k + 1;
        u := rng.uniform(k);
        k := k + 1;
        if u < addlPr {
          err := err + token;
        }
        errorIntroduced := true;
      }
    }
    if !errorIntroduced {
      err := err + token;
      assert err == token;
    }
    r := Ok((err, k));
  }

  /** keyboard_corrupt. */
  method KeyboardCorrupt(truth: string, pr: real, addlPr: real, table: Table, rng: Rng, k0: nat)
    returns (r: Result<(string, nat)>)
    requires rng.Valid()
    ensures r == KeyCorrupt(truth, 0, pr, addlPr, table, rng, k0)
  {
    var err := "";
    var i: nat := 0;
    var k := k0;
    PrefixedEmpty(KeyCorrupt(truth, 0, pr, addlPr, table, rng, k0));
    while i < |truth|
      invariant KeyCorrupt(truth, 0, pr, addlPr, table, rng, k0) ==
                Prefixed(err, KeyCorrupt(truth, i, pr, addlPr, table, rng, k))
      decreases |truth| - i
    {
      var step := KeyAt(truth, i, pr, addlPr, table, rng, k);
      if step.Err? {
        return Err(step.error);
      }
      PrefixedAssoc(err, step.value.0, KeyCorrupt(truth, i + 1, pr, addlPr, table, rng, step.value.1));
      err := err + step.value.0;
      i := i + 1;
      k := step.value.1;
    }
    assert err + "" == err;
    r := Ok((err, k));
  }

  // ---------------------------------------------------------------------
  // Properties of the scans

  /** A non-positive probability never replaces a token. */
  lemma {:induction false} FirstHitNeverBelowZero(truth: string, i: nat, lengths: seq<nat>, pr: real, table: Table, rng: Rng, k: nat)
    requires rng.Valid() && pr <= 0.0
    ensures FirstHit(truth, i, lengths, pr, table, rng, k).Ok? && FirstHit(truth, i, lengths, pr, table, rng, k).value.Miss?
    decreases |lengths|
  {
    if lengths != [] {
      assert 0.0 <= rng.uniform(k);
      FirstHitNeverBelowZero(truth, i, lengths[1..], pr, table, rng, k + (if Token(truth, i, lengths[0]) in table then 1 else 0));
    }
  }

  /** With a non-positive probability the phonetic and OCR scans return
      the string unchanged. */
  lemma {:induction false} CorruptZeroProbability(truth: string, i: nat, lengths: seq<nat>, pr: real, table: Table, rng: Rng, k: nat)
    requires rng.Valid() && Positive(lengths) && pr <= 0.0 && i <= |truth|
    ensures Corrupt(truth, i, lengths, pr, table, rng, k).Ok?
    ensures Corrupt(truth, i, lengths, pr, table, rng, k).value.0 == truth[i..]
    decreases |truth| - i
  {
    if i < |truth| {
      FirstHitNeverBelowZero(truth, i, lengths, pr, table, rng, k);
      var k' := FirstHit(truth, i, lengths, pr, table, rng, k).value.cursor;
      CorruptZeroProbability(truth, i + 1, lengths, pr, table, rng, k');
      assert truth[i..] == [truth[i]] + truth[i + 1..];
    }
  }

  /** No token of any tried length in the table: the scan draws nothing and
      copies the string. */
  lemma {:induction false} FirstHitNoToken(truth: string, i: nat, lengths: seq<nat>, pr: real, table: Table, rng: Rng, k: nat)
    requires rng.Valid() && forall m :: 0 <= m < |lengths| ==> Token(truth, i, lengths[m]) !in table
    ensures FirstHit(truth, i, lengths, pr, table, rng, k) == Ok(Miss(k))
    decreases |lengths|
  {
    if lengths != [] {
      FirstHitNoToken(truth, i, lengths[1..], pr, table, rng, k);
    }
  }

  predicate NoTokens(truth: string, lengths: seq<nat>, table: Table)
  {
    forall i: nat, m :: i < |truth| && 0 <= m < |lengths| ==> Token(truth, i, lengths[m]) !in table
  }

  lemma {:induction false} CorruptNoTokens(truth: string, i: nat, lengths: seq<nat>, pr: real, table: Table, rng: Rng, k: nat)
    requires rng.Valid() && Positive(lengths) && NoTokens(truth, lengths, table) && i <= |truth|
    ensures Corrupt(truth, i, lengths, pr, table, rng, k) == Ok((truth[i..], k))
    decreases |truth| - i
  {
    if i < |truth| {
      FirstHitNoToken(truth, i, lengths, pr, table, rng, k);
      CorruptNoTokens(truth, i + 1, lengths, pr, table, rng, k);
      assert truth[i..] == [truth[i]] + truth[i + 1..];
    }
  }

  /** At the last character every length slices the same one-character
      token, so a listed last character is offered one draw per length:
      when the phonetic scan does not replace it, all seven draws were at
      least pr. */
  lemma LastCharacterDrawsPerLength(truth: string, pr: real, table: Table, rng: Rng, k: nat)
    requires rng.Valid() && |truth| > 0 && [truth[|truth| - 1]] in table
    requires forall d :: k <= d < k + 7 ==> rng.uniform(d) >= pr
    ensures FirstHit(truth, |truth| - 1, PhoneticLengths, pr, table, rng, k) == Ok(Miss(k + 7))
  {
    var i := |truth| - 1;
    forall L: nat | L >= 1 ensures Token(truth, i, L) == [truth[i]] {
      assert truth[i..i + 1] == [truth[i]];
    }
  }

  /** Each position of a typo scan emits the character itself, a mistyping
      of it, or a mistyping followed by the character. */
  lemma KeyStepShape(c: char, pr: real, addlPr: real, table: Table, rng: Rng, k: nat)
    requires rng.Valid() && KeyStep(c, pr, addlPr, table, rng, k).Ok?
    ensures var piece := KeyStep(c, pr, addlPr, table, rng, k).value.0;
      piece == [c] || ([c] in table && exists sub :: sub in table[[c]] && (piece == sub || piece == sub + [c]))
  {
    var token := [c];
    if token in table && rng.uniform(k) < pr {
      var options := table[token];
      var sub := options[rng.pick(k + 1, |options|)];
      assert sub in table[[c]];
    }
  }

  /** With a non-positive probability the typo scan returns the string
      unchanged. */
  lemma {:induction false} KeyCorruptZeroProbability(truth: string, i: nat, pr: real, addlPr: real, table: Table, rng: Rng, k: nat)
    requires rng.Valid() && pr <= 0.0 && i <= |truth|
    ensures KeyCorrupt(truth, i, pr, addlPr, table, rng, k).Ok?
    ensures KeyCorrupt(truth, i, pr, addlPr, table, rng, k).value.0 == truth[i..]
    decreases |truth| - i
  {
    if i < |truth| {
      assert 0.0 <= rng.uniform(k);
      var step := KeyStep(truth[i], pr, addlPr, table, rng, k);
      assert step.Ok? && step.value.0 == [truth[i]];
      KeyCorruptZeroProbability(truth, i + 1, pr, addlPr, table, rng, step.value.1);
      assert truth[i..] == [truth[i]] + truth[i + 1..];
    }
  }

  // ---------------------------------------------------------------------
  // The column functions

  /** The three scans. */
  datatype Scheme = Phonetic | Ocr | Keyboard

  /** The scan of one value under a scheme. */
  function CorruptValue(scheme: Scheme, truth: string, pr: real, table: Table, rng: Rng, k: nat): (r: Result<(string, nat)>)
    requires rng.Valid()
    ensures r.Ok? ==> r.value.1 >= k
  {
    match scheme
    case Phonetic => Corrupt(truth, 0, PhoneticLengths, pr, table, rng, k)
    case Ocr => Corrupt(truth, 0, OcrLengths, pr, table, rng, k)
    case Keyboard => KeyCorrupt(truth, 0, pr, IncludeTokenProbability, table, rng, k)
  }

  /** The values scanned in index order, each starting at the call counter
      the previous one left. */
  function CorruptValues(scheme: Scheme, values: seq<string>, pr: real, table: Table, rng: Rng, k: nat)
    : (r: Result<seq<string>>)
    requires rng.Valid()
    ensures r.Ok? ==> |r.value| == |values|
  {
    if values == [] then Ok([])
    else
      var first :- CorruptValue(scheme, values[0], pr, table, rng, k);
      var rest :- CorruptValues(scheme, values[1..], pr, table, rng, first.1);
      Ok([first.0] + rest)
  }

  /** The call of the scheme's corrupt function on one value. */
  method CorruptOne(scheme: Scheme, truth: string, pr: real, table: Table, rng: Rng, k: nat)
    returns (noised: Result<(string, nat)>)
    requires rng.Valid()
    ensures noised == CorruptValue(scheme, truth, pr, table, rng, k)
  {
    match scheme {
      case Phonetic => noised := CorruptByLengths(true, truth, PhoneticLengths, pr, table, rng, k);
      case Ocr => noised := CorruptByLengths(false, truth, OcrLengths, pr, table, rng, k);
      case Keyboard => noised := KeyboardCorrupt(truth, pr, IncludeTokenProbability, table, rng, k);
    }
  }

  /** The loop `for idx in data.index: data[idx] = corrupt(data[idx], ...)`
      over the string values of a column, on an array. */
  method CorruptColumn(scheme: Scheme, values: seq<string>, pr: real, table: Table, rng: Rng)
    returns (r: Result<seq<string>>)
    requires rng.Valid()
    ensures r == CorruptValues(scheme, values, pr, table, rng, 0)
  {
    var n := |values|;
    var data := values;
    var k := 0;
    assert values[0..] == values && data[..0] == [];
    PrefixedSeqEmpty(CorruptValues(scheme, values, pr, table, rng, 0));
    for j := 0 to n
      invariant |data| == n && data[j..] == values[j..]
      invariant CorruptValues(scheme, values, pr, table, rng, 0) ==
                PrefixedSeq(data[..j], CorruptValues(scheme, values[j..], pr, table, rng, k))
    {
      var truth := data[j];
      assert truth == values[j];
      var noised := CorruptOne(scheme, truth, pr, table, rng, k);
      CorruptValuesAt(scheme, values, j, pr, table, rng, k);
      if noised.Err? {
        return Err(noised.error);
      }
      PrefixedSeqAssoc(data[..j], [noised.value.0], CorruptValues(scheme, values[j + 1..], pr, table, rng, noised.value.1));
      ReplaceAt(data, values, j, noised.value.0);
      data := data[j := noised.value.0];
      k := noised.value.1;
    }
    assert data[..n] == data;
    assert data[..n] + [] == data;
    r := Ok(data);
  }

  lemma ReplaceAt(data: seq<string>, values: seq<string>, j: nat, x: string)
    requires |data| == |values| && j < |data| && data[j..] == values[j..]
    ensures data[j := x][..j + 1] == data[..j] + [x]
    ensures data[j := x][j + 1..] == values[j + 1..]
  {
    assert data[j + 1..] == data[j..][1..];
  }

  /** CorruptValues from position j, one value unfolded. */
  lemma CorruptValuesAt(scheme: Scheme, values: seq<string>, j: nat, pr: real, table: Table, rng: Rng, k: nat)
    requires rng.Valid() && j < |values|
    ensures var first := CorruptValue(scheme, values[j], pr, table, rng, k);
      && (first.Err? ==> CorruptValues(scheme, values[j..], pr, table, rng, k) == Err(first.error))
      && (first.Ok? ==> CorruptValues(scheme, values[j..], pr, table, rng, k) ==
                        PrefixedSeq([first.value.0], CorruptValues(scheme, values[j + 1..], pr, table, rng, first.value.1)))
  {
    assert values[j..][0] == values[j];
    assert values[j..][1..] == values[j + 1..];
  }

  /** `prefix` in front of the values of a result. */
  function PrefixedSeq(prefix: seq<string>, r: Result<seq<string>>): Result<seq<string>>
  {
    if r.Err? then r else Ok(prefix + r.value)
  }

  lemma PrefixedSeqEmpty(r: Result<seq<string>>)
    ensures PrefixedSeq([], r) == r
  {
    if r.Ok? {
      assert [] + r.value == r.value;
    }
  }

  lemma PrefixedSeqAssoc(a: seq<string>, b: seq<string>, r: Result<seq<string>>)
    ensures PrefixedSeq(a, PrefixedSeq(b, r)) == PrefixedSeq(a + b, r)
  {
    if r.Ok? {
      assert a + (b + r.value) == (a + b) + r.value;
    }
  }

  /** make_phonetic_errors, make_ocr_errors and make_typos: the token
      probability (KeyError when absent), then the column (KeyError), as
      strings, scanned value by value from a generator seeded by the
      stream. */
  method CorruptStrings(scheme: Scheme, data: Frame, configuration: Tree, rng: Rng, columnName: string, table: Table)
    returns (r: Result<Series>)
    requires data.Valid() && rng.Valid()
    ensures !configuration.Has(ColumnNoise.TokenProbability) ==> r == Err(KeyError(ColumnNoise.TokenProbability))
    ensures GetReal(configuration, ColumnNoise.TokenProbability).Ok? && columnName !in data.columns ==>
      r == Err(KeyError(columnName))
    ensures r.Ok? <==>
      && GetReal(configuration, ColumnNoise.TokenProbability).Ok?
      && columnName in data.columns
      && CorruptValues(scheme, ColumnNoise.CellStrings(data.Column(columnName).values),
                       GetReal(configuration, ColumnNoise.TokenProbability).value, table, rng, 0).Ok?
    ensures r.Ok? ==>
      r.value == Series(columnName, data.Index(),
                        ColumnNoise.StrCells(CorruptValues(scheme, ColumnNoise.CellStrings(data.Column(columnName).values),
                                                           GetReal(configuration, ColumnNoise.TokenProbability).value,
                                                           table, rng, 0).value), false)
  {
    var token :- GetReal(configuration, ColumnNoise.TokenProbability);
    var column :- data.GetColumn(columnName);
    var strs := ColumnNoise.CellStrings(column.values);
    var noised :- CorruptColumn(scheme, strs, token, table, rng);
    r := Ok(Series(columnName, column.index, ColumnNoise.StrCells(noised), false));
  }

  lemma CorruptValueZeroProbability(scheme: Scheme, truth: string, pr: real, table: Table, rng: Rng, k: nat)
    requires rng.Valid() && pr <= 0.0
    ensures CorruptValue(scheme, truth, pr, table, rng, k).Ok?
    ensures CorruptValue(scheme, truth, pr, table, rng, k).value.0 == truth
  {
    assert truth[0..] == truth;
    match scheme {
      case Phonetic => CorruptZeroProbability(truth, 0, PhoneticLengths, pr, table, rng, k);
      case Ocr => CorruptZeroProbability(truth, 0, OcrLengths, pr, table, rng, k);
      case Keyboard => KeyCorruptZeroProbability(truth, 0, pr, IncludeTokenProbability, table, rng, k);
    }
  }

  /** With a non-positive token probability every value comes back as its
      string form. */
  lemma {:induction false} CorruptValuesZeroProbability(scheme: Scheme, values: seq<string>, pr: real, table: Table, rng: Rng, k: nat)
    requires rng.Valid() && pr <= 0.0
    ensures CorruptValues(scheme, values, pr, table, rng, k) == Ok(values)
    decreases |values|
  {
    if values != [] {
      var first := CorruptValue(scheme, values[0], pr, table, rng, k);
      CorruptValueZeroProbability(scheme, values[0], pr, table, rng, k);
      CorruptValuesZeroProbability(scheme, values[1..], pr, table, rng, first.value.1);
      assert values == [values[0]] + values[1..];
    }
  }
}
