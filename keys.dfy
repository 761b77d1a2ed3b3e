/** URL-friendly keys for rooms and devices. The same definition serves the
    voice tools and the admin tables, so a key derived from a name is the
    same whichever screen creates the record. */
module Keys {
  import opened Seqs
  import opened Text

  /** The characters the first replacement keeps: `[a-z0-9]`. */
  predicate IsKeyChar(c: char) {
    'a' <= c <= 'z' || '0' <= c <= '9'
  }

  predicate AllKeyChars(s: string) {
    forall i :: 0 <= i < |s| ==> IsKeyChar(s[i])
  }

  predicate NoKeyChars(s: string) {
    forall i :: 0 <= i < |s| ==> !IsKeyChar(s[i])
  }

  /** Drops the leading characters outside `[a-z0-9]`. */
  function SkipSeparators(s: string): (r: string)
    ensures |r| <= |s|
    ensures s != [] && !IsKeyChar(s[0]) ==> |r| < |s|
  {
    if s != [] && !IsKeyChar(s[0]) then SkipSeparators(s[1..]) else s
  }

  /** What `SkipSeparators` drops and what it keeps. */
  lemma {:induction false} SkipSeparatorsSplits(s: string)
    ensures var r := SkipSeparators(s);
      && r == s[|s| - |r|..]
      && (r == [] || IsKeyChar(r[0]))
      && NoKeyChars(s[..|s| - |r|])
    decreases |s|
  {
    if s != [] && !IsKeyChar(s[0]) {
      SkipSeparatorsSplits(s[1..]);
      var r := SkipSeparators(s);
      assert s[..|s| - |r|] == [s[0]] + s[1..][..|s| - 1 - |r|];
    }
  }

  /** The leading run of `[a-z0-9]` characters. */
  function TakeRun(s: string): (w: string)
    ensures |w| <= |s|
    ensures s != [] && IsKeyChar(s[0]) ==> w != []
  {
    if s != [] && IsKeyChar(s[0]) then [s[0]] + TakeRun(s[1..]) else ""
  }

  /** The run is a prefix of key characters, followed by a separator or by
      nothing. */
  lemma {:induction false} TakeRunSplits(s: string)
    ensures var w := TakeRun(s);
      && w == s[..|w|]
      && AllKeyChars(w)
      && (|w| == |s| || !IsKeyChar(s[|w|]))
    decreases |s|
  {
    if s != [] && IsKeyChar(s[0]) {
      TakeRunSplits(s[1..]);
    }
  }

  /** `replace(/[^a-z0-9]+/g, '-')`: runs of `[a-z0-9]` are copied, and
      every maximal run of other characters becomes a single `-`. */
  function Collapse(s: string): string
    decreases |s|
  {
    if s == [] then ""
    else if IsKeyChar(s[0]) then
      var w := TakeRun(s);
      w + Collapse(s[|w|..])
    else "-" + Collapse(SkipSeparators(s))
  }

  /** `replace(/(^-|-$)+/g, '')`: removes one `-` at the start and one at the
      end (for "--" the repetition consumes both, which is the same). */
  function TrimDashes(s: string): string {
    var t := if s != [] && s[0] == '-' then s[1..] else s;
    if t != [] && t[|t| - 1] == '-' then t[..|t| - 1] else t
  }

  /** `generateKey(name)`. */
  function GenerateKey(name: string): string {
    TrimDashes(Collapse(Lower(name)))
  }

  // ------------------------------------------------------------ the shape of a key

  /** Only `a-z`, `0-9` and `-`; no `-` at either end; no two `-` side by side. */
  predicate IsKey(k: string) {
    && (forall i :: 0 <= i < |k| ==> IsKeyChar(k[i]) || k[i] == '-')
    && (k != [] ==> k[0] != '-' && k[|k| - 1] != '-')
    && (forall i :: 0 < i < |k| ==> !DoubleDashAt(k, i))
  }

  /** `k[i - 1]` and `k[i]` are both `-`. */
  predicate DoubleDashAt(k: string, i: int)
    requires 0 < i < |k|
  {
    k[i - 1] == '-' && k[i] == '-'
  }

  // ------------------------------------------------------------ reference definition

  /** The maximal non-empty runs of `[a-z0-9]` in `s`, in order: the words a
      key is made of. */
  function Words(s: string): seq<string>
    decreases |s|
  {
    var t := SkipSeparators(s);
    if t == [] then []
    else
      var w := TakeRun(t);
      [w] + Words(t[|w|..])
  }

  /** `s` holds a character outside `[a-z0-9]` at its end. */
  predicate EndsWithSeparator(s: string) {
    s != [] && !IsKeyChar(s[|s| - 1])
  }

  /** A non-empty run of `[a-z0-9]`. */
  predicate IsWord(w: string) {
    w != [] && AllKeyChars(w)
  }

  lemma {:induction false} WordsAreRuns(s: string)
    ensures forall k :: 0 <= k < |Words(s)| ==> IsWord(Words(s)[k])
    decreases |s|
  {
    var t := SkipSeparators(s);
    if t != [] {
      SkipSeparatorsSplits(s);
      var w := TakeRun(t);
      TakeRunSplits(t);
      var rest := t[|w|..];
      WordsAreRuns(rest);
      var ws := Words(rest);
      assert Words(s) == [w] + ws;
      forall k | 0 <= k < |Words(s)|
        ensures IsWord(Words(s)[k])
      {
        if k > 0 {
          assert Words(s)[k] == ws[k - 1];
        }
      }
    }
  }

  /** A string with no word is empty or ends in a separator. */
  lemma NoWordsAllSeparators(s: string)
    requires SkipSeparators(s) == []
    ensures s == [] || EndsWithSeparator(s)
  {
    SkipSeparatorsSplits(s);
    if s != [] {
      assert s[..|s|][|s| - 1] == s[|s| - 1];
    }
  }

  lemma Regroup(a: string, b: string, c: string, d: string)
    ensures a + (b + (c + d)) == a + b + c + d
  {
  }

  /** A non-empty suffix decides whether the whole string ends in a separator. */
  lemma SuffixEnds(s: string, t: string)
    requires t != [] && |t| <= |s| && t == s[|s| - |t|..]
    ensures EndsWithSeparator(s) == EndsWithSeparator(t)
  {
    assert t[|t| - 1] == s[|s| - 1];
  }

  /** Skipping separators does not change the words. */
  lemma WordsAfterSkip(s: string)
    ensures Words(SkipSeparators(s)) == Words(s)
  {
    var e := SkipSeparators(s);
    SkipSeparatorsSplits(s);
    assert SkipSeparators(e) == e;
  }

  /** The case of `CollapseIsJoinedWords` where a run is followed by
      separators and more words. */
  lemma CollapseStep(s: string, w: string, d: string, e: string)
    requires s != [] && IsKeyChar(s[0]) && w == TakeRun(s) && d == s[|w|..]
    requires d != [] && !IsKeyChar(d[0]) && e == SkipSeparators(d) && e != []
    requires Collapse(e) == Join(Words(e), "-") + (if EndsWithSeparator(e) then "-" else "")
    ensures Collapse(s) == Join(Words(s), "-") + (if EndsWithSeparator(s) then "-" else "")
  {
    SkipSeparatorsSplits(d);
    SkipSeparatorsSplits(s);
    assert Words(s) == [w] + Words(d);
    WordsAfterSkip(d);
    var ws := Words(e);
    assert ws != [] by {
      assert SkipSeparators(e) == e;
    }
    assert Join([w] + ws, "-") == w + "-" + Join(ws, "-") by {
      assert ([w] + ws)[1..] == ws;
    }
    SuffixEnds(d, e);
    SuffixEnds(s, d);
    var tail := if EndsWithSeparator(e) then "-" else "";
    calc {
      Collapse(s);
      w + Collapse(d);
      w + ("-" + Collapse(e));
      w + ("-" + (Join(ws, "-") + tail));
      { Regroup(w, "-", Join(ws, "-"), tail); }
      w + "-" + Join(ws, "-") + tail;
      Join([w] + ws, "-") + tail;
    }
  }

  /** Collapsing a string that starts with a key character yields its words
      joined by `-`, plus one `-` when the string ends in separators. */
  lemma {:induction false} CollapseIsJoinedWords(s: string)
    requires s == [] || IsKeyChar(s[0])
    ensures Collapse(s) == Join(Words(s), "-") + (if EndsWithSeparator(s) then "-" else "")
    decreases |s|
  {
    if s != [] {
      var w := TakeRun(s);
      TakeRunSplits(s);
      var d := s[|w|..];
      if d == [] {
        assert s == w;
        SkipSeparatorsSplits(s);
        assert Words(s) == [w] + Words(d);
        assert Words(d) == [];
        assert Collapse(s) == w + Collapse(d);
      } else {
        var e := SkipSeparators(d);
        SkipSeparatorsSplits(d);
        if e == [] {
          SkipSeparatorsSplits(s);
          assert Words(s) == [w] + Words(d);
          assert Words(d) == [];
          NoWordsAllSeparators(d);
          SuffixEnds(s, d);
          assert Collapse(s) == w + Collapse(d);
          assert Collapse(d) == "-" + Collapse(e);
        } else {
          CollapseIsJoinedWords(e);
          CollapseStep(s, w, d, e);
        }
      }
    }
  }

  /** The words joined by `-` neither start nor end with `-`. */
  lemma {:induction false} JoinedWordsEnds(ws: seq<string>)
    requires forall k :: 0 <= k < |ws| ==> IsWord(ws[k])
    ensures ws != [] ==> Join(ws, "-") != [] && IsKeyChar(Join(ws, "-")[0])
    ensures ws != [] ==> IsKeyChar(Join(ws, "-")[|Join(ws, "-")| - 1])
    decreases |ws|
  {
    if |ws| > 1 {
      JoinedWordsEnds(ws[1..]);
      assert Join(ws, "-") == ws[0] + ("-" + Join(ws[1..], "-"));
    }
  }

  /** Trimming removes one optional `-` on each side of a string that has
      none at its ends. */
  lemma TrimDashesAround(j: string, lead: bool, tail: bool)
    requires j == [] || (j[0] != '-' && j[|j| - 1] != '-')
    ensures TrimDashes((if lead then "-" else "") + j + (if tail then "-" else "")) == j
  {
    var a := if lead then "-" else "";
    var b := if tail then "-" else "";
    if j == [] {
      assert a + j + b == a + b;
    } else {
      var t := if (a + j + b)[0] == '-' then (a + j + b)[1..] else a + j + b;
      assert t == j + b by {
        if lead {
          assert (a + j + b)[1..] == j + b;
        } else {
          assert a + j + b == j + b;
        }
      }
      if tail {
        assert (j + b)[..|j + b| - 1] == j;
      } else {
        assert j + b == j;
      }
    }
  }

  /** A leading run of separators becomes one `-`. */
  lemma CollapseLeadingSeparators(s: string)
    requires s != [] && !IsKeyChar(s[0])
    ensures Collapse(s) == "-" + Collapse(SkipSeparators(s))
  {
  }

  /** The joined words of a string, as `Collapse` produces them. */
  lemma JoinedWordsShape(s: string)
    ensures var k := Join(Words(s), "-"); k == [] || (k[0] != '-' && k[|k| - 1] != '-')
  {
    WordsAreRuns(s);
    JoinedWordsEnds(Words(s));
  }

  /** Trimming the collapsed string leaves exactly its words joined by `-`. */
  lemma TrimmedCollapseIsJoinedWords(s: string)
    ensures TrimDashes(Collapse(s)) == Join(Words(s), "-")
  {
    var k := Join(Words(s), "-");
    JoinedWordsShape(s);
    if s == [] {
    } else if IsKeyChar(s[0]) {
      CollapseIsJoinedWords(s);
      TrimDashesAround(k, false, EndsWithSeparator(s));
      assert "" + k == k;
    } else {
      var e := SkipSeparators(s);
      SkipSeparatorsSplits(s);
      CollapseLeadingSeparators(s);
      WordsAfterSkip(s);
      CollapseIsJoinedWords(e);
      TrimDashesAround(k, true, EndsWithSeparator(e));
      AppendAssoc("-", k, if EndsWithSeparator(e) then "-" else "");
    }
  }

  /** The reference characterization: a key is the words of the lower-cased
      name joined by single dashes. */
  lemma KeyIsJoinedWords(name: string)
    ensures GenerateKey(name) == Join(Words(Lower(name)), "-")
  {
    TrimmedCollapseIsJoinedWords(Lower(name));
  }

  /** Joining non-empty `[a-z0-9]` words by `-` gives a well-formed key. */
  lemma {:induction false} JoinedWordsIsKey(ws: seq<string>)
    requires forall k :: 0 <= k < |ws| ==> IsWord(ws[k])
    ensures IsKey(Join(ws, "-"))
    decreases |ws|
  {
    if |ws| == 1 {
      assert IsWord(ws[0]);
    } else if |ws| > 1 {
      JoinedWordsIsKey(ws[1..]);
      JoinedWordsEnds(ws[1..]);
      JoinedWordsEnds(ws);
      var w := ws[0];
      assert IsWord(w);
      var rest := Join(ws[1..], "-");
      var k := Join(ws, "-");
      assert k == w + "-" + rest;
      forall i | 0 < i < |k| ensures !DoubleDashAt(k, i) {
        if i < |w| {
          assert k[i] == w[i];
        } else if i == |w| {
          assert k[i - 1] == w[i - 1];
        } else if i == |w| + 1 {
          assert k[i] == rest[0];
        } else {
          assert k[i] == rest[i - |w| - 1] && k[i - 1] == rest[i - 1 - |w| - 1];
          assert !DoubleDashAt(rest, i - |w| - 1);
        }
      }
      forall i | 0 <= i < |k| ensures IsKeyChar(k[i]) || k[i] == '-' {
        if i < |w| {
          assert k[i] == w[i];
        } else if i > |w| {
          assert k[i] == rest[i - |w| - 1];
        }
      }
    }
  }

  /** The output alphabet and shape promised by `generateKey`. */
  lemma GeneratedKeyIsKey(name: string)
    ensures IsKey(GenerateKey(name))
  {
    KeyIsJoinedWords(name);
    WordsAreRuns(Lower(name));
    JoinedWordsIsKey(Words(Lower(name)));
  }

  // ------------------------------------------------------------ idempotence

  /** A word followed by a separator or by nothing is read back whole. */
  lemma {:induction false} TakeRunOfWord(w: string, t: string)
    requires AllKeyChars(w)
    requires t == [] || !IsKeyChar(t[0])
    ensures TakeRun(w + t) == w
    decreases |w|
  {
    if w == [] {
      assert w + t == t;
    } else {
      assert (w + t)[1..] == w[1..] + t;
      TakeRunOfWord(w[1..], t);
    }
  }

  /** Splitting joined words into words gives them back. */
  lemma {:induction false} WordsOfJoin(ws: seq<string>)
    requires forall k :: 0 <= k < |ws| ==> IsWord(ws[k])
    ensures Words(Join(ws, "-")) == ws
    decreases |ws|
  {
    if ws == [] {
    } else {
      var w := ws[0];
      assert IsWord(w);
      var k := Join(ws, "-");
      if |ws| == 1 {
        TakeRunOfWord(w, "");
        assert w + "" == w;
        assert k[|w|..] == [];
      } else {
        var rest := Join(ws[1..], "-");
        assert k == w + ("-" + rest);
        JoinedWordsEnds(ws[1..]);
        TakeRunOfWord(w, "-" + rest);
        assert k[|w|..] == "-" + rest;
        assert SkipSeparators("-" + rest) == rest by {
          assert ("-" + rest)[1..] == rest;
        }
        WordsOfJoin(ws[1..]);
        assert Words("-" + rest) == Words(rest);
      }
      assert SkipSeparators(k) == k;
    }
  }

  /** Lower-casing leaves a key unchanged. */
  lemma LowerKey(k: string)
    requires IsKey(k)
    ensures Lower(k) == k
  {
  }

  /** Deriving a key from a key changes nothing. */
  lemma GenerateKeyIdempotent(name: string)
    ensures GenerateKey(GenerateKey(name)) == GenerateKey(name)
  {
    var k := GenerateKey(name);
    var ws := Words(Lower(name));
    KeyIsJoinedWords(name);
    WordsAreRuns(Lower(name));
    GeneratedKeyIsKey(name);
    LowerKey(k);
    KeyIsJoinedWords(k);
    WordsOfJoin(ws);
  }

  // ------------------------------------------------------------ a worked example

  /** Separators in front of a word, or in front of nothing, are skipped. */
  lemma {:induction false} SkipSeparatorsOver(sep: string, rest: string)
    requires NoKeyChars(sep)
    requires rest == [] || IsKeyChar(rest[0])
    ensures SkipSeparators(sep + rest) == rest
    decreases |sep|
  {
    if sep == [] {
      assert sep + rest == rest;
    } else {
      assert (sep + rest)[1..] == sep[1..] + rest;
      SkipSeparatorsOver(sep[1..], rest);
    }
  }

  /** A word, then separators, then what follows: the word is read off and
      reading goes on after the separators. */
  lemma WordsCons(w: string, sep: string, rest: string)
    requires IsWord(w) && sep != [] && NoKeyChars(sep)
    requires rest == [] || IsKeyChar(rest[0])
    ensures Words(w + (sep + rest)) == [w] + Words(rest)
  {
    var s := w + (sep + rest);
    TakeRunOfWord(w, sep + rest);
    assert s[|w|..] == sep + rest;
    SkipSeparatorsOver(sep, rest);
    assert SkipSeparators(s) == s;
    assert Words(sep + rest) == Words(rest);
  }

  /** The example name, lower-cased, seen as words and separators. */
  lemma LowerConferenceRoom(name: string)
    requires name == "Conference Room #1!"
    ensures Lower(name) == "conference" + (" " + ("room" + (" #" + ("1" + "!"))))
  {
  }

  /** Three words, each followed by separators, are read back as those
      three words. */
  lemma WordsOfThree(a: string, b: string, c: string, x: string, y: string, z: string)
    requires IsWord(a) && IsWord(b) && IsWord(c)
    requires x != [] && y != [] && z != [] && NoKeyChars(x) && NoKeyChars(y) && NoKeyChars(z)
    ensures Words(a + (x + (b + (y + (c + z))))) == [a, b, c]
  {
    WordsCons(c, z, "");
    assert z + "" == z;
    WordsCons(b, y, c + z);
    WordsCons(a, x, b + (y + (c + z)));
  }

  /** Joining three parts puts the separator between them. */
  lemma JoinThree(a: string, b: string, c: string)
    ensures Join([a, b, c], "-") == a + "-" + b + "-" + c
  {
    assert [a, b, c][1..] == [b, c];
    assert [b, c][1..] == [c];
    assert Join([b, c], "-") == b + "-" + c;
    assert a + "-" + (b + "-" + c) == a + "-" + b + "-" + c;
  }

  /** The pieces of the example name are words and separators. */
  lemma ConferenceRoomParts()
    ensures IsWord("conference") && IsWord("room") && IsWord("1")
    ensures NoKeyChars(" ") && NoKeyChars(" #") && NoKeyChars("!")
  {
  }

  /** "Conference Room #1!" becomes "conference-room-1". The name is a
      parameter equal to the literal, which keeps the verifier from
      evaluating the whole derivation on the literal at once. */
  lemma ConferenceRoomKey(name: string)
    requires name == "Conference Room #1!"
    ensures GenerateKey(name) == "conference-room-1"
  {
    LowerConferenceRoom(name);
    KeyIsJoinedWords(name);
    ConferenceRoomParts();
    WordsOfThree("conference", "room", "1", " ", " #", "!");
    JoinThree("conference", "room", "1");
    assert "conference" + "-" + "room" + "-" + "1" == "conference-room-1";
  }
}
