/** The pure pieces of the training model: how a canonical sample is cut into
    rows, the shape guard, the batch keying of transport forms and the
    extraction of the 0/1 feature vector. */
module Samples {
  import opened Types
  import opened Codec
  import opened CorpusDao

  /** Rows glued back with newlines. */
  function JoinRows(rows: seq<string>): string
    requires |rows| >= 1
  {
    if |rows| == 1 then rows[0] else rows[0] + "\n" + JoinRows(rows[1..])
  }

  /** `s.split('\n')`: the pieces between newlines; a string without newline,
      the empty one included, is a single row. */
  function Rows(s: string): (rows: seq<string>)
    ensures |rows| >= 1
  {
    if s == [] then [""]
    else
      var rest := Rows(s[1..]);
      if s[0] == '\n' then [""] + rest
      else [[s[0]] + rest[0]] + rest[1..]
  }

  /** A sample has one more row than it has newlines. */
  lemma {:induction false} RowsCount(s: string)
    ensures |Rows(s)| == multiset(s)['\n'] + 1
    decreases |s|
  {
    if s != [] {
      RowsCount(s[1..]);
      assert s == [s[0]] + s[1..];
      assert multiset(s) == multiset{s[0]} + multiset(s[1..]);
    }
  }

  /** No row holds a newline. */
  lemma {:induction false} RowsNewlineFree(s: string)
    ensures forall i :: 0 <= i < |Rows(s)| ==> '\n' !in Rows(s)[i]
    decreases |s|
  {
    if s != [] {
      var rest := Rows(s[1..]);
      RowsNewlineFree(s[1..]);
      var rows := Rows(s);
      forall i | 0 <= i < |rows|
        ensures '\n' !in rows[i]
      {
        if s[0] == '\n' {
          if i > 0 {
            assert rows[i] == rest[i - 1];
          }
        } else if i > 0 {
          assert rows[i] == rest[i];
        } else {
          assert rows[0] == [s[0]] + rest[0];
        }
      }
    }
  }

  /** Joining the rows gives the sample back. */
  lemma {:induction false} JoinRowsRows(s: string)
    ensures JoinRows(Rows(s)) == s
    decreases |s|
  {
    if s != [] {
      var rest := Rows(s[1..]);
      JoinRowsRows(s[1..]);
      assert s == [s[0]] + s[1..];
      if s[0] != '\n' {
        RowsAfterChar(s[0], s[1..]);
        JoinRowsPrepend(s[0], rest[0], rest[1..]);
        assert rest == [rest[0]] + rest[1..];
      } else {
        RowsAfterNewline(s[1..]);
        JoinRowsEmptyFirst(rest);
      }
    }
  }

  lemma JoinRowsPrepend(c: char, first: string, more: seq<string>)
    ensures JoinRows([[c] + first] + more) == [c] + JoinRows([first] + more)
  {
    if more != [] {
      assert ([[c] + first] + more)[1..] == more;
      assert ([first] + more)[1..] == more;
    }
  }

  lemma JoinRowsEmptyFirst(rows: seq<string>)
    requires |rows| >= 1
    ensures JoinRows([""] + rows) == "\n" + JoinRows(rows)
  {
    assert ([""] + rows)[1..] == rows;
  }

  /** Splitting undoes joining when no row holds a newline. */
  lemma {:induction false} RowsJoinRows(rows: seq<string>)
    requires |rows| >= 1
    requires forall i :: 0 <= i < |rows| ==> '\n' !in rows[i]
    ensures Rows(JoinRows(rows)) == rows
    decreases |rows|, |rows[0]|
  {
    if |rows| == 1 {
      RowsOfLine(rows[0]);
    } else if rows[0] == [] {
      RowsJoinRows(rows[1..]);
      RowsAfterNewline(JoinRows(rows[1..]));
      assert rows == [""] + rows[1..];
    } else {
      var c := rows[0][0];
      var shorter := [rows[0][1..]] + rows[1..];
      assert rows[0] == [c] + shorter[0];
      assert '\n' !in shorter[0] by {
        assert forall x :: x in shorter[0] ==> x in rows[0];
      }
      assert forall i :: 1 <= i < |shorter| ==> shorter[i] == rows[i];
      RowsJoinRows(shorter);
      assert shorter[1..] == rows[1..];
      assert JoinRows(rows) == [c] + JoinRows(shorter);
      RowsAfterChar(c, JoinRows(shorter));
      assert rows == [rows[0]] + rows[1..];
    }
  }

  lemma RowsAfterNewline(x: string)
    ensures Rows("\n" + x) == [""] + Rows(x)
  {
    assert ("\n" + x)[1..] == x;
  }

  lemma RowsAfterChar(c: char, x: string)
    requires c != '\n'
    ensures Rows([c] + x) == [[c] + Rows(x)[0]] + Rows(x)[1..]
  {
    assert ([c] + x)[1..] == x;
  }

  lemma {:induction false} RowsOfLine(line: string)
    requires '\n' !in line
    ensures Rows(line) == [line]
    decreases |line|
  {
    if line != [] {
      assert '\n' !in line[1..] by {
        assert forall x :: x in line[1..] ==> x in line;
      }
      RowsOfLine(line[1..]);
      assert line == [line[0]] + line[1..];
    }
  }

  /** The sample has `height` rows and its first row is `width` long. */
  predicate ShapeOk(sample: string, height: int, width: int)
  {
    |Rows(sample)| == height && |Rows(sample)[0]| == width
  }

  /** `samples.find(d => <shape mismatch>)`: the first sample of the wrong
      shape, if any. */
  function FindMismatch(samples: seq<string>, height: int, width: int): (r: Option<string>)
    ensures r.None? <==> forall i :: 0 <= i < |samples| ==> ShapeOk(samples[i], height, width)
    ensures r.Some? ==> exists i :: (0 <= i < |samples| && samples[i] == r.value && !ShapeOk(r.value, height, width)
                        && forall j :: 0 <= j < i ==> ShapeOk(samples[j], height, width))
  {
    if samples == [] then None
    else if !ShapeOk(samples[0], height, width) then Some(samples[0])
    else
      var r := FindMismatch(samples[1..], height, width);
      assert forall i :: 1 <= i < |samples| ==> samples[i] == samples[1..][i - 1];
      r
  }

  /** The guard as written: it tests the truthiness of what `find` returns,
      and the empty string is falsy. */
  predicate RejectsAsWritten(samples: seq<string>, height: int, width: int)
  {
    var found := FindMismatch(samples, height, width);
    found.Some? && found.value != ""
  }

  /** The guard as intended: some sample has the wrong shape. */
  predicate Rejects(samples: seq<string>, height: int, width: int)
  {
    FindMismatch(samples, height, width).Some?
  }

  lemma RejectsIffMisshapen(samples: seq<string>, height: int, width: int)
    ensures Rejects(samples, height, width) <==> exists i :: 0 <= i < |samples| && !ShapeOk(samples[i], height, width)
  {
  }

  /** With no empty sample the two guards agree. */
  lemma GuardsAgreeWithoutEmptySample(samples: seq<string>, height: int, width: int)
    requires forall i :: 0 <= i < |samples| ==> samples[i] != ""
    ensures RejectsAsWritten(samples, height, width) <==> Rejects(samples, height, width)
  {
    var found := FindMismatch(samples, height, width);
    if found.Some? {
      var i :| 0 <= i < |samples| && samples[i] == found.value;
    }
  }

  /** An empty sample has one row of width zero, so it is misshapen for
      every grid except 1 x 0 (in particular the configured 50 x 40); the
      as-written guard still lets it through, and with it any misshapen
      sample that follows it. */
  lemma EmptySampleSlipsThrough(bad: string, height: int, width: int)
    requires height != 1 || width != 0
    requires !ShapeOk(bad, height, width)
    ensures Rejects(["", bad], height, width)
    ensures !RejectsAsWritten(["", bad], height, width)
  {
    assert Rows("") == [""];
    assert !ShapeOk("", height, width);
  }

  /** A sample of `height` rows of `width` copies of `c`. */
  function Grid(height: nat, width: nat, c: char): string
    requires height >= 1
  {
    JoinRows(seq(height, _ => seq(width, _ => c)))
  }

  lemma GridFits(height: nat, width: nat, c: char)
    requires height >= 1 && c != '\n'
    ensures ShapeOk(Grid(height, width, c), height, width)
  {
    var rows := seq(height, _ => seq(width, _ => c));
    RowsJoinRows(rows);
  }

  /** The batch built from the transport forms: each keyed by its name-based
      UUID under `namespace`. */
  function BatchOf(namespace: string, transport: seq<string>): (batch: Corpus)
    ensures forall t :: t in transport ==> KeyOf(namespace, t) in batch && batch[KeyOf(namespace, t)] == t
    ensures forall k :: k in batch ==> k.namespace == namespace && k.name in transport && batch[k] == k.name
  {
    map t | t in transport :: KeyOf(namespace, t) := t
  }

  /** The batch of a longer list: the new form's entry is added or was already there. */
  lemma BatchOfAppend(namespace: string, transport: seq<string>, t: string)
    ensures BatchOf(namespace, transport + [t]) == BatchOf(namespace, transport)[KeyOf(namespace, t) := t]
  {
    var longer := BatchOf(namespace, transport + [t]);
    var updated := BatchOf(namespace, transport)[KeyOf(namespace, t) := t];
    assert longer.Keys == updated.Keys by {
      forall k | k in longer
        ensures k in updated
      {
        assert k.name in transport + [t];
        assert k.name == t || k.name in transport;
      }
      forall k | k in updated
        ensures k in longer
      {
        assert k == KeyOf(namespace, t) || k.name in transport;
        assert k.name in transport + [t];
      }
    }
  }

  /** One entry per distinct transport form: duplicates collapse. */
  lemma BatchSize(namespace: string, transport: seq<string>)
    ensures |BatchOf(namespace, transport)| == |set t | t in transport|
  {
    var names := set t | t in transport;
    assert BatchOf(namespace, transport).Keys == set t | t in names :: KeyOf(namespace, t);
    KeysCount(namespace, names);
  }

  lemma {:induction false} KeysCount(namespace: string, names: set<string>)
    ensures |set t | t in names :: KeyOf(namespace, t)| == |names|
    decreases |names|
  {
    if names != {} {
      var t :| t in names;
      var rest := names - {t};
      KeysCount(namespace, rest);
      assert (set u | u in names :: KeyOf(namespace, u)) == (set u | u in rest :: KeyOf(namespace, u)) + {KeyOf(namespace, t)};
    }
  }

  function BitOf(c: char): seq<int>
  {
    if c == '1' then [1] else if c == '0' then [0] else []
  }

  /** The 0/1 vector of a decoded sample: `'1'` gives 1, `'0'` gives 0, and
      every other character (the row separators) is skipped. */
  function Bits(s: string): seq<int>
  {
    if s == [] then [] else Bits(s[..|s| - 1]) + BitOf(s[|s| - 1])
  }

  /** Only 0s and 1s. */
  lemma {:induction false} BitsBinary(s: string)
    ensures forall i :: 0 <= i < |Bits(s)| ==> Bits(s)[i] == 0 || Bits(s)[i] == 1
    decreases |s|
  {
    if s != [] {
      BitsBinary(s[..|s| - 1]);
    }
  }

  /** As many 1s as the sample has `'1'` characters and as many 0s as it has
      `'0'` characters, hence one entry per such character. */
  lemma {:induction false} BitsCount(s: string)
    ensures multiset(Bits(s))[1] == multiset(s)['1']
    ensures multiset(Bits(s))[0] == multiset(s)['0']
    decreases |s|
  {
    if s != [] {
      var init := s[..|s| - 1];
      var c := s[|s| - 1];
      BitsCount(init);
      SplitLast(s);
      CharCounts(init, c);
      BitOfCounts(c);
      assert multiset(Bits(s)) == multiset(Bits(init)) + multiset(BitOf(c));
    }
  }

  /** Hence one entry per `'0'` or `'1'` character. */
  lemma {:induction false} BitsLength(s: string)
    ensures |Bits(s)| == multiset(s)['0'] + multiset(s)['1']
    decreases |s|
  {
    if s != [] {
      var init := s[..|s| - 1];
      var c := s[|s| - 1];
      BitsLength(init);
      SplitLast(s);
      CharCounts(init, c);
      BitOfCounts(c);
    }
  }

  lemma SplitLast(s: string)
    requires s != []
    ensures s == s[..|s| - 1] + [s[|s| - 1]]
  {
  }

  lemma CharCounts(init: string, c: char)
    ensures multiset(init + [c])['1'] == multiset(init)['1'] + (if c == '1' then 1 else 0)
    ensures multiset(init + [c])['0'] == multiset(init)['0'] + (if c == '0' then 1 else 0)
  {
    assert multiset(init + [c]) == multiset(init) + multiset{c};
  }

  lemma BitOfCounts(c: char)
    ensures multiset(BitOf(c))[1] == (if c == '1' then 1 else 0)
    ensures multiset(BitOf(c))[0] == (if c == '0' then 1 else 0)
    ensures |BitOf(c)| == (if c == '0' || c == '1' then 1 else 0)
  {
  }

  /** Extraction keeps the order of the characters. */
  lemma {:induction false} BitsAppend(a: string, b: string)
    ensures Bits(a + b) == Bits(a) + Bits(b)
    decreases |b|
  {
    if b == [] {
      assert a + b == a;
    } else {
      var b' := b[..|b| - 1];
      var c := b[|b| - 1];
      assert a + b == (a + b') + [c];
      BitsAppend(a, b');
      calc {
        Bits(a + b);
        Bits(a + b') + BitOf(c);
        Bits(a) + Bits(b') + BitOf(c);
        Bits(a) + Bits(b);
      }
    }
  }

  /** A stored transport form as a training input: decoded, then reduced to
      its 0/1 vector; `None` when it does not decode. */
  function Features(transport: string): (v: Option<seq<int>>)
    ensures v.Some? <==> Unpack(transport).Some?
    ensures v.Some? ==> v.value == Bits(Unpack(transport).value)
  {
    match Unpack(transport)
    case None => None
    case Some(s) => Some(Bits(s))
  }

  /** A sample submitted as plain text reads back, once stored, as its own
      0/1 vector. */
  lemma FeaturesOfPacked(sample: string)
    ensures Features(Pack(sample)) == Some(Bits(sample))
  {
    UnpackPack(sample);
  }
}
