/** Aggregation of one agent run's standard output, shared by both front-ends
    (goose-tui.py:312-326, goose-web.py:188-199): every raw line is stripped,
    blank results are dropped, the survivors keep their emission order and
    are newline-joined into the assistant's message. */
module Response {
  import opened Text

  /** What the terminal front-end records when nothing survives. */
  const Sentinel: string := "✅ Task completed (no output)"

  /** What one raw line contributes: its strip, unless that is empty. */
  function Keep(line: string): (r: seq<string>)
    ensures |r| <= 1
  {
    var t := Strip(line);
    if t == [] then [] else [t]
  }

  /** The stripped, non-empty raw lines, in emission order. */
  function Survivors(raw: seq<string>): (r: seq<string>)
    ensures |r| <= |raw|
    ensures forall k :: 0 <= k < |r| ==> r[k] != [] && Stripped(r[k])
  {
    if raw == [] then []
    else Survivors(raw[..|raw| - 1]) + Keep(raw[|raw| - 1])
  }

  /** The positions of the raw lines that survive, in ascending order. */
  function Kept(raw: seq<string>): (idx: seq<nat>)
    ensures forall k :: 0 <= k < |idx| ==> idx[k] < |raw|
    ensures forall k, m :: 0 <= k < m < |idx| ==> idx[k] < idx[m]
  {
    if raw == [] then []
    else if Strip(raw[|raw| - 1]) == [] then Kept(raw[..|raw| - 1])
    else Kept(raw[..|raw| - 1]) + [|raw| - 1]
  }

  /** The survivors are exactly the strips of the non-blank raw lines, taken
      in emission order: survivor k is the strip of raw line Kept(raw)[k],
      where the kept positions ascend (`Kept`) and are exactly the positions
      of the non-blank lines (`KeptExactly`). */
  lemma {:induction false} SurvivorsInOrder(raw: seq<string>)
    ensures |Survivors(raw)| == |Kept(raw)|
    ensures forall k :: 0 <= k < |Kept(raw)| ==> Survivors(raw)[k] == Strip(raw[Kept(raw)[k]])
  {
    if raw != [] {
      var n := |raw| - 1;
      var init := raw[..n];
      SurvivorsInOrder(init);
      var s, idx := Survivors(init), Kept(init);
      var line := Strip(raw[n]);
      var s', idx' := if line == [] then s else s + [line], if line == [] then idx else idx + [n];
      assert Survivors(raw) == s' && Kept(raw) == idx';
      InOrderExtend(raw, s, idx);
    }
  }

  /** The step of `SurvivorsInOrder`, on plain sequences. */
  lemma InOrderExtend(raw: seq<string>, s: seq<string>, idx: seq<nat>)
    requires raw != [] && |s| == |idx|
    requires forall k :: 0 <= k < |idx| ==> idx[k] < |raw| - 1 && s[k] == Strip(raw[idx[k]])
    ensures var line := Strip(raw[|raw| - 1]);
      var s' := if line == [] then s else s + [line];
      var idx' := if line == [] then idx else idx + [|raw| - 1];
      |s'| == |idx'| && forall k :: 0 <= k < |idx'| ==> s'[k] == Strip(raw[idx'[k]])
  {
    var n := |raw| - 1;
    if Strip(raw[n]) != [] {
      var s', idx' := s + [Strip(raw[n])], idx + [n];
      forall k | 0 <= k < |idx'| ensures s'[k] == Strip(raw[idx'[k]]) {
        if k < |idx| {
          assert s'[k] == s[k] && idx'[k] == idx[k];
        }
      }
    }
  }

  /** A raw line's position is kept exactly when the line is not blank. */
  lemma {:induction false} KeptExactly(raw: seq<string>, i: nat)
    requires i < |raw|
    ensures i in Kept(raw) <==> !Blank(raw[i])
  {
    var n := |raw| - 1;
    var init := raw[..n];
    if i < n {
      KeptExactly(init, i);
      assert raw[i] == init[i];
      assert i in Kept(raw) <==> i in Kept(init);
    } else {
      assert n !in Kept(init);
    }
  }

  /** Aggregation is compositional: the survivors of two runs of output
      read one after the other are the survivors of each, concatenated. */
  lemma {:induction false} SurvivorsConcat(a: seq<string>, b: seq<string>)
    ensures Survivors(a + b) == Survivors(a) + Survivors(b)
  {
    if b == [] {
      assert a + b == a;
    } else {
      var b', x := b[..|b| - 1], b[|b| - 1];
      var ab' := a + b';
      assert a + b == ab' + [x];
      assert b == b' + [x];
      SurvivorsSnoc(ab', x);
      SurvivorsSnoc(b', x);
      SurvivorsConcat(a, b');
      calc {
        Survivors(a + b);
        Survivors(ab') + Keep(x);
        Survivors(a) + Survivors(b') + Keep(x);
        Survivors(a) + (Survivors(b') + Keep(x));
      }
    }
  }

  /** One more raw line contributes what `Keep` says, at the end. */
  lemma SurvivorsSnoc(raw: seq<string>, line: string)
    ensures Survivors(raw + [line]) == Survivors(raw) + Keep(line)
  {
    assert (raw + [line])[..|raw|] == raw;
  }

  /** Nothing survives exactly when every raw line is blank. */
  lemma SurvivorsEmpty(raw: seq<string>)
    ensures Survivors(raw) == [] <==> forall i :: 0 <= i < |raw| ==> Blank(raw[i])
  {
    SurvivorsInOrder(raw);
    var idx := Kept(raw);
    forall i | 0 <= i < |raw| ensures i in idx <==> !Blank(raw[i]) {
      KeptExactly(raw, i);
    }
    if idx != [] {
      assert idx[0] in idx;
    }
  }

  /** The `for line in process.stdout` loop of both front-ends: collects
      `response_lines`. */
  method Collect(stdout: seq<string>) returns (responseLines: seq<string>)
    ensures responseLines == Survivors(stdout)
  {
    responseLines := [];
    for i := 0 to |stdout|
      invariant responseLines == Survivors(stdout[..i])
    {
      assert stdout[..i + 1][..i] == stdout[..i];
      var line := Strip(stdout[i]);
      if line != [] {
        responseLines := responseLines + [line];
      }
    }
    assert stdout[..|stdout|] == stdout;
  }

  /** The terminal front-end's assistant content: the newline join, or the
      sentinel when the join is empty. */
  function Reply(responseLines: seq<string>): (r: string)
    ensures r != []
  {
    var full := Join(responseLines, '\n');
    if full != [] then full else Sentinel
  }

  /** For survivors, the sentinel is substituted exactly when nothing
      survived; otherwise the content is the newline join of the survivors. */
  lemma ReplyOfSurvivors(raw: seq<string>)
    ensures Survivors(raw) == [] ==> Reply(Survivors(raw)) == Sentinel
    ensures Survivors(raw) != [] ==> Reply(Survivors(raw)) == Join(Survivors(raw), '\n')
  {
    JoinEmpty(Survivors(raw), '\n');
  }

  /** The recorded content alone cannot tell "no output" from an agent that
      printed exactly the sentinel text. */
  lemma SentinelIsAmbiguous()
    ensures Survivors([Sentinel]) == [Sentinel]
    ensures Reply(Survivors([])) == Reply(Survivors([Sentinel]))
  {
    StripExact([], Sentinel, []);
    assert [] + Sentinel + [] == Sentinel;
    assert [Sentinel][..0] == [];
  }

  /** The terminal front-end records exactly the sentinel text when nothing
      survived or when the one surviving line is the sentinel itself. */
  lemma ReplyIsSentinel(raw: seq<string>)
    ensures Reply(Survivors(raw)) == Sentinel <==> Survivors(raw) == [] || Survivors(raw) == [Sentinel]
  {
    ReplyIsSentinelOf(Survivors(raw));
  }

  /** The same for any non-empty lines: a join of two or more lines holds a
      newline, which the sentinel lacks. */
  lemma ReplyIsSentinelOf(lines: seq<string>)
    requires forall k :: 0 <= k < |lines| ==> lines[k] != []
    ensures Reply(lines) == Sentinel <==> lines == [] || lines == [Sentinel]
  {
    JoinEmpty(lines, '\n');
    if |lines| >= 2 {
      JoinHoldsSeparator(lines, '\n');
      assert '\n' !in Sentinel;
    }
  }

  /** When the raw lines are lines of a text stream, the newline join of the
      survivors splits back into the survivors themselves: the joined message
      carries the same lines, in the same order, as the partial events. */
  lemma {:induction false} JoinedSurvivorsSplitBack(raw: seq<string>)
    requires forall i :: 0 <= i < |raw| ==> RawLine(raw[i])
    requires Survivors(raw) != []
    ensures Split(Join(Survivors(raw), '\n'), '\n') == Survivors(raw)
  {
    var lines := Survivors(raw);
    SurvivorsInOrder(raw);
    forall k | 0 <= k < |lines| ensures '\n' !in lines[k] {
      RawLineStripNoNewline(raw[Kept(raw)[k]]);
    }
    SplitJoin(lines, '\n');
  }

  /** End to end over the whole standard output text. */
  lemma StreamSplitsBack(text: string)
    requires Survivors(Lines(text)) != []
    ensures Split(Join(Survivors(Lines(text)), '\n'), '\n') == Survivors(Lines(text))
  {
    JoinedSurvivorsSplitBack(Lines(text));
  }
}
