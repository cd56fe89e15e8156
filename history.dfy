/**
 * Parsing of the flat conversation transcript ("User: ...\nAssistant: ...")
 * into role-tagged turns, as `AIGenerator.generate_response` does before the
 * first completion request.
 *
 * `ParseLines` is the reference reading: one turn per marker line, whose
 * content is the marker line without its prefix followed by the unmarked
 * lines up to the next marker; its role is "user" when the NEXT marker is a
 * "User: " line and otherwise the role of its own marker. `ParseHistory` is
 * the line-by-line loop of the source, proved to agree with it.
 */
module History {
  import opened Wrappers
  import opened Text
  import opened Messages

  const UserPrefix := "User: "
  const AssistantPrefix := "Assistant: "

  /** The role a marker line announces, None for a line without a marker. */
  function MarkerRole(line: string): Option<Role> {
    if StartsWith(line, UserPrefix) then Some(UserRole)
    else if StartsWith(line, AssistantPrefix) then Some(AssistantRole)
    else None
  }

  predicate IsMarker(line: string) {
    MarkerRole(line).Some?
  }

  /** A marker line without its 6- or 11-character prefix (any other line is kept whole). */
  function MarkerBody(line: string): string {
    if StartsWith(line, UserPrefix) then line[6..]
    else if StartsWith(line, AssistantPrefix) then line[11..]
    else line
  }

  /** The indices below `n` of the marker lines, in increasing order. */
  function Markers(lines: seq<string>, n: nat): (m: seq<nat>)
    requires n <= |lines|
    ensures forall t :: 0 <= t < |m| ==> m[t] < n
    ensures forall s, t :: 0 <= s < t < |m| ==> m[s] < m[t]
  {
    if n == 0 then []
    else Markers(lines, n - 1) + (if IsMarker(lines[n - 1]) then [n - 1] else [])
  }

  /** No marker line is missed: every marker line below `n` is listed. */
  lemma {:induction false} MarkersComplete(lines: seq<string>, n: nat, k: nat)
    requires k < n <= |lines| && IsMarker(lines[k])
    ensures k in Markers(lines, n)
  {
    if k < n - 1 {
      MarkersComplete(lines, n - 1, k);
    }
  }

  /** Every listed marker line is a marker line. */
  lemma {:induction false} MarkersAreMarkers(lines: seq<string>, n: nat, t: nat)
    requires n <= |lines| && t < |Markers(lines, n)|
    ensures IsMarker(lines[Markers(lines, n)[t]])
  {
    if t < |Markers(lines, n - 1)| {
      MarkersAreMarkers(lines, n - 1, t);
    }
  }

  /**
   * The turn opened by the marker line at `start` and closed by the line at
   * `stop` (the next marker line, or the end of the transcript): its lines
   * are the marker's body and the lines in between; its role is "user" when
   * the closing line is a "User: " line, else the role its own marker
   * announces.
   */
  function Turn(lines: seq<string>, start: nat, stop: nat): Message {
    var role := if stop < |lines| && StartsWith(lines[stop], UserPrefix) then UserRole
                else if start < |lines| then MarkerRole(lines[start]).GetOr(UserRole)
                else UserRole;
    var block := if start < stop <= |lines| then [MarkerBody(lines[start])] + lines[start + 1..stop] else [];
    TextMessage(role, Join(block, "\n"))
  }

  /** Where the turn of the `t`-th marker of `m` stops: at the next marker, or at the end. */
  function TurnStop(lines: seq<string>, m: seq<nat>, t: nat): nat
    requires t < |m|
  {
    if t + 1 < |m| then m[t + 1] else |lines|
  }

  /** The turn opened by the `t`-th marker of `m`. */
  function TurnAt(lines: seq<string>, m: seq<nat>, t: nat): Message
    requires t < |m|
  {
    Turn(lines, m[t], TurnStop(lines, m, t))
  }

  /** The turns opened by the first `n` markers of `m`, in order. */
  function FlushedTurns(lines: seq<string>, m: seq<nat>, n: nat): (turns: seq<Message>)
    requires n <= |m|
    ensures |turns| == n
  {
    if n == 0 then [] else FlushedTurns(lines, m, n - 1) + [TurnAt(lines, m, n - 1)]
  }

  /** The `t`-th flushed turn is the turn of the `t`-th marker. */
  lemma {:induction false} FlushedTurnsAt(lines: seq<string>, m: seq<nat>, n: nat, t: nat)
    requires t < n <= |m|
    ensures FlushedTurns(lines, m, n)[t] == TurnAt(lines, m, t)
  {
    if t < n - 1 {
      FlushedTurnsAt(lines, m, n - 1, t);
    }
  }

  /** The turns of a transcript already split into lines: one per marker line, in order. */
  function ParseLines(lines: seq<string>): (turns: seq<Message>)
  {
    var m := Markers(lines, |lines|);
    FlushedTurns(lines, m, |m|)
  }

  /** The turns of an optional transcript; a missing or empty transcript has none. */
  function ParsedHistory(history: Option<string>): seq<Message> {
    if history.None? || history.value == "" then [] else ParseLines(Split(history.value))
  }

  /** Every parsed turn is a plain text turn with a role; the transcript never yields tool turns. */
  lemma HistoryIsText(history: Option<string>)
    ensures forall t :: 0 <= t < |ParsedHistory(history)| ==> ParsedHistory(history)[t].TextMessage?
  {
    if history.Some? && history.value != "" {
      var lines := Split(history.value);
      var m := Markers(lines, |lines|);
      forall t | 0 <= t < |m| ensures FlushedTurns(lines, m, |m|)[t].TextMessage? {
        FlushedTurnsAt(lines, m, |m|, t);
      }
    }
  }

  /** Adding a later marker leaves the turns of all but the last earlier marker as they were. */
  lemma TurnAtExtend(lines: seq<string>, m: seq<nat>, k: nat, t: nat)
    requires t + 1 < |m|
    ensures TurnAt(lines, m + [k], t) == TurnAt(lines, m, t)
  {
    assert (m + [k])[t] == m[t] && TurnStop(lines, m + [k], t) == TurnStop(lines, m, t);
  }

  /**
   * The state of the source's loop after the first `i` lines, `m` being the
   * marker lines among them: the turns flushed so far are those of all
   * markers but the last one, and the buffered role and lines are those of
   * the last marker.
   */
  ghost predicate Scanned(lines: seq<string>, i: nat, m: seq<nat>, turns: seq<Message>, role: Option<Role>, content: seq<string>)
    requires i <= |lines|
  {
    if |m| == 0 then turns == [] && role.None? && content == []
    else
      var last := m[|m| - 1];
      && last < i
      && turns == FlushedTurns(lines, m, |m| - 1)
      && role.Some? && role == MarkerRole(lines[last])
      && content == [MarkerBody(lines[last])] + lines[last + 1..i]
  }

  /** A "User: " line is a user marker whose body follows the 6-character prefix. */
  lemma UserLine(lines: seq<string>, i: nat, m: seq<nat>)
    requires i < |lines| && StartsWith(lines[i], "User: ") && m == Markers(lines, i)
    ensures IsMarker(lines[i]) && MarkerRole(lines[i]) == Some(UserRole) && MarkerBody(lines[i]) == lines[i][6..]
    ensures m + [i] == Markers(lines, i + 1)
  {
  }

  /** An "Assistant: " line is an assistant marker whose body follows the 11-character prefix. */
  lemma AssistantLine(lines: seq<string>, i: nat, m: seq<nat>)
    requires i < |lines| && !StartsWith(lines[i], "User: ") && StartsWith(lines[i], "Assistant: ")
    requires m == Markers(lines, i)
    ensures IsMarker(lines[i]) && MarkerRole(lines[i]) == Some(AssistantRole) && MarkerBody(lines[i]) == lines[i][11..]
    ensures m + [i] == Markers(lines, i + 1)
  {
  }

  /** Any other line is not a marker. */
  lemma PlainLine(lines: seq<string>, i: nat, m: seq<nat>)
    requires i < |lines| && !StartsWith(lines[i], "User: ") && !StartsWith(lines[i], "Assistant: ")
    requires m == Markers(lines, i)
    ensures !IsMarker(lines[i]) && m == Markers(lines, i + 1)
  {
  }

  /** Adding a later marker keeps the turns already flushed. */
  lemma {:induction false} KeepFlushed(lines: seq<string>, m: seq<nat>, k: nat, n: nat)
    requires n < |m|
    ensures FlushedTurns(lines, m + [k], n) == FlushedTurns(lines, m, n)
  {
    if n > 0 {
      KeepFlushed(lines, m, k, n - 1);
      TurnAtExtend(lines, m, k, n - 1);
    }
  }

  /** The first marker line opens the first turn; nothing is flushed. */
  lemma ScanFirstMarker(lines: seq<string>, i: nat, m: seq<nat>, turns: seq<Message>, content: seq<string>)
    requires i < |lines| && IsMarker(lines[i])
    requires Scanned(lines, i, m, turns, None, content)
    ensures turns == [] && content == [] && m == []
    ensures Scanned(lines, i + 1, m + [i], [], MarkerRole(lines[i]), [MarkerBody(lines[i])])
  {
    OpenedTurn(lines, i, m, []);
  }

  /**
   * A later marker line flushes the buffered turn: under the role "user" when
   * it is a "User: " line, under the buffered role otherwise.
   */
  lemma ScanNextMarker(lines: seq<string>, i: nat, m: seq<nat>, turns: seq<Message>, role: Role, content: seq<string>)
    requires i < |lines| && IsMarker(lines[i])
    requires Scanned(lines, i, m, turns, Some(role), content)
    ensures |content| > 0
    ensures var flushRole := if StartsWith(lines[i], UserPrefix) then UserRole else role;
      Scanned(lines, i + 1, m + [i], turns + [TextMessage(flushRole, Join(content, "\n"))],
              MarkerRole(lines[i]), [MarkerBody(lines[i])])
  {
    FlushedTurn(lines, m, i, turns, role, content);
    OpenedTurn(lines, i, m, turns + [TextMessage(if StartsWith(lines[i], UserPrefix) then UserRole else role, Join(content, "\n"))]);
  }

  /** The state just after a marker line: its turn is open with the marker's body alone. */
  lemma OpenedTurn(lines: seq<string>, i: nat, m: seq<nat>, turns: seq<Message>)
    requires i < |lines| && IsMarker(lines[i])
    requires turns == FlushedTurns(lines, m + [i], |m|)
    ensures Scanned(lines, i + 1, m + [i], turns, MarkerRole(lines[i]), [MarkerBody(lines[i])])
  {
    var m' := m + [i];
    assert |m'| - 1 == |m| && m'[|m|] == i;
    AppendEmpty([MarkerBody(lines[i])], lines[i + 1..i + 1]);
  }

  /** The turn flushed at marker line `i` is the reference turn of the last marker before it. */
  lemma FlushedTurn(lines: seq<string>, m: seq<nat>, i: nat, turns: seq<Message>, role: Role, content: seq<string>)
    requires i < |lines|
    requires |m| > 0 && m[|m| - 1] < i
    requires turns == FlushedTurns(lines, m, |m| - 1)
    requires Some(role) == MarkerRole(lines[m[|m| - 1]])
    requires content == [MarkerBody(lines[m[|m| - 1]])] + lines[m[|m| - 1] + 1..i]
    ensures var flushRole := if StartsWith(lines[i], UserPrefix) then UserRole else role;
      turns + [TextMessage(flushRole, Join(content, "\n"))] == FlushedTurns(lines, m + [i], |m|)
  {
    KeepFlushed(lines, m, i, |m| - 1);
    assert (m + [i])[|m| - 1] == m[|m| - 1] && TurnStop(lines, m + [i], |m| - 1) == i;
  }

  /** An unmarked line joins the buffered turn, or is dropped while no turn is open. */
  lemma ScanPlain(lines: seq<string>, i: nat, m: seq<nat>, turns: seq<Message>, role: Option<Role>, content: seq<string>)
    requires i < |lines| && !IsMarker(lines[i])
    requires Scanned(lines, i, m, turns, role, content)
    ensures Scanned(lines, i + 1, m, turns, role, if |content| > 0 then content + [lines[i]] else content)
  {
    if |m| > 0 {
      var last := m[|m| - 1];
      assert lines[last + 1..i + 1] == lines[last + 1..i] + [lines[i]];
    }
  }

  /** Flushing the buffered turn after the last line completes the reference reading. */
  lemma ScanEnd(lines: seq<string>, m: seq<nat>, turns: seq<Message>, role: Option<Role>, content: seq<string>)
    requires m == Markers(lines, |lines|)
    requires Scanned(lines, |lines|, m, turns, role, content)
    ensures role.Some? == (|content| > 0)
    ensures (if role.Some? then turns + [TextMessage(role.value, Join(content, "\n"))] else turns)
      == ParseLines(lines)
  {
    if |m| > 0 {
      LastTurn(lines, m, turns, role.value, content);
    }
  }

  /** The turn still open after the last line is the reference turn of the last marker. */
  lemma LastTurn(lines: seq<string>, m: seq<nat>, turns: seq<Message>, role: Role, content: seq<string>)
    requires |m| > 0 && m[|m| - 1] < |lines|
    requires turns == FlushedTurns(lines, m, |m| - 1)
    requires Some(role) == MarkerRole(lines[m[|m| - 1]])
    requires content == [MarkerBody(lines[m[|m| - 1]])] + lines[m[|m| - 1] + 1..|lines|]
    ensures turns + [TextMessage(role, Join(content, "\n"))] == FlushedTurns(lines, m, |m|)
  {
    assert TurnStop(lines, m, |m| - 1) == |lines|;
  }

  /**
   * The source's loop over the lines: a marker line flushes the buffered turn
   * (with the fixed role "user" on a "User: " line, with the buffered role on
   * an "Assistant: " line) and opens a new one; other lines are added to the
   * open turn, or dropped while none is open; the open turn is flushed last.
   */
  method ParseHistory(history: Option<string>) returns (turns: seq<Message>)
    ensures turns == ParsedHistory(history)
  {
    turns := [];
    if history.None? || history.value == "" {
      return;
    }
    var lines := Split(history.value);
    var currentRole: Option<Role> := None;
    var currentContent: seq<string> := [];
    ghost var m: seq<nat> := [];
    for i := 0 to |lines|
      invariant m == Markers(lines, i)
      invariant Scanned(lines, i, m, turns, currentRole, currentContent)
    {
      var line := lines[i];
      if StartsWith(line, "User: ") {
        UserLine(lines, i, m);
        if currentRole.Some? {
          ScanNextMarker(lines, i, m, turns, currentRole.value, currentContent);
        } else {
          ScanFirstMarker(lines, i, m, turns, currentContent);
        }
        m := m + [i];
        if currentRole.Some? && |currentContent| > 0 {
          turns := turns + [TextMessage(UserRole, Join(currentContent, "\n"))];
        }
        currentRole := Some(UserRole);
        currentContent := [line[6..]];
      } else if StartsWith(line, "Assistant: ") {
        AssistantLine(lines, i, m);
        if currentRole.Some? {
          ScanNextMarker(lines, i, m, turns, currentRole.value, currentContent);
        } else {
          ScanFirstMarker(lines, i, m, turns, currentContent);
        }
        m := m + [i];
        if currentRole.Some? && |currentContent| > 0 {
          turns := turns + [TextMessage(currentRole.value, Join(currentContent, "\n"))];
        }
        currentRole := Some(AssistantRole);
        currentContent := [line[11..]];
      } else {
        PlainLine(lines, i, m);
        ScanPlain(lines, i, m, turns, currentRole, currentContent);
        if |currentContent| > 0 {
          currentContent := currentContent + [line];
        }
      }
    }
    ScanEnd(lines, m, turns, currentRole, currentContent);
    if currentRole.Some? && |currentContent| > 0 {
      turns := turns + [TextMessage(currentRole.value, Join(currentContent, "\n"))];
    }
  }

  /** The turn of the `t`-th marker line is an assistant turn iff its own marker and the next one (if any) are "Assistant: " lines. */
  lemma ParsedRole(lines: seq<string>, t: nat)
    requires t < |ParseLines(lines)|
    ensures var m := Markers(lines, |lines|);
      && ParseLines(lines)[t].TextMessage?
      && (ParseLines(lines)[t].role == AssistantRole <==>
          StartsWith(lines[m[t]], AssistantPrefix) && (t + 1 == |m| || StartsWith(lines[m[t + 1]], AssistantPrefix)))
  {
    var m := Markers(lines, |lines|);
    FlushedTurnsAt(lines, m, |m|, t);
    MarkersAreMarkers(lines, |lines|, t);
    PrefixesExclusive(lines[m[t]]);
    if t + 1 < |m| {
      MarkersAreMarkers(lines, |lines|, t + 1);
      PrefixesExclusive(lines[m[t + 1]]);
    }
  }

  /** No line starts with both markers. */
  lemma PrefixesExclusive(line: string)
    ensures !(StartsWith(line, UserPrefix) && StartsWith(line, AssistantPrefix))
  {
    if StartsWith(line, UserPrefix) {
      assert line[0] == UserPrefix[0] == 'U';
    }
  }

  /** The indices of `m` moved up by `d`. */
  function Shift(m: seq<nat>, d: nat): (r: seq<nat>)
    ensures |r| == |m|
    ensures forall t :: 0 <= t < |m| ==> r[t] == m[t] + d
  {
    seq(|m|, t requires 0 <= t < |m| => m[t] + d)
  }

  /** Unmarked leading lines add no marker: the markers of `pre + rest` are those of `rest`, moved up by `|pre|`. */
  lemma {:induction false} MarkersShift(pre: seq<string>, rest: seq<string>, n: nat)
    requires forall k :: 0 <= k < |pre| ==> !IsMarker(pre[k])
    requires n <= |rest|
    ensures Markers(pre + rest, |pre| + n) == Shift(Markers(rest, n), |pre|)
  {
    if n == 0 {
      NoMarkersInPrefix(pre, rest, |pre|);
    } else {
      MarkersShift(pre, rest, n - 1);
      assert (pre + rest)[|pre| + n - 1] == rest[n - 1];
      var m := Markers(rest, n - 1);
      if IsMarker(rest[n - 1]) {
        assert Shift(m + [n - 1], |pre|) == Shift(m, |pre|) + [|pre| + n - 1];
      }
    }
  }

  lemma {:induction false} NoMarkersInPrefix(pre: seq<string>, rest: seq<string>, k: nat)
    requires forall j :: 0 <= j < |pre| ==> !IsMarker(pre[j])
    requires k <= |pre|
    ensures Markers(pre + rest, k) == []
  {
    if k > 0 {
      NoMarkersInPrefix(pre, rest, k - 1);
      assert (pre + rest)[k - 1] == pre[k - 1];
    }
  }

  /** A turn read at shifted positions after unmarked leading lines is the same turn. */
  lemma TurnShift(pre: seq<string>, rest: seq<string>, start: nat, stop: nat)
    ensures Turn(pre + rest, start + |pre|, stop + |pre|) == Turn(rest, start, stop)
  {
    var lines := pre + rest;
    var d := |pre|;
    if stop < |rest| {
      assert lines[stop + d] == rest[stop];
    }
    if start < |rest| {
      assert lines[start + d] == rest[start];
    }
    if start < stop <= |rest| {
      assert lines[start + d + 1..stop + d] == rest[start + 1..stop];
    }
  }

  lemma {:induction false} FlushedTurnsShift(pre: seq<string>, rest: seq<string>, m: seq<nat>, n: nat)
    requires n <= |m|
    ensures FlushedTurns(pre + rest, Shift(m, |pre|), n) == FlushedTurns(rest, m, n)
  {
    if n > 0 {
      FlushedTurnsShift(pre, rest, m, n - 1);
      var stop := TurnStop(rest, m, n - 1);
      assert TurnStop(pre + rest, Shift(m, |pre|), n - 1) == stop + |pre|;
      TurnShift(pre, rest, m[n - 1], stop);
    }
  }

  /** Lines before the first marker line are dropped: they contribute to no turn. */
  lemma LeadingLinesDropped(pre: seq<string>, rest: seq<string>)
    requires forall k :: 0 <= k < |pre| ==> !IsMarker(pre[k])
    ensures ParseLines(pre + rest) == ParseLines(rest)
  {
    var m := Markers(rest, |rest|);
    MarkersShift(pre, rest, |rest|);
    FlushedTurnsShift(pre, rest, m, |m|);
  }

  /** A "User: " line announces a user turn whose body is the rest of the line. */
  lemma UserLineOf(a: string)
    ensures var line := UserPrefix + a;
      StartsWith(line, UserPrefix) && MarkerRole(line) == Some(UserRole) && MarkerBody(line) == a
  {
    assert (UserPrefix + a)[..6] == UserPrefix;
  }

  /** An "Assistant: " line announces an assistant turn whose body is the rest of the line. */
  lemma AssistantLineOf(b: string)
    ensures var line := AssistantPrefix + b;
      !StartsWith(line, UserPrefix) && StartsWith(line, AssistantPrefix)
      && MarkerRole(line) == Some(AssistantRole) && MarkerBody(line) == b
  {
    assert (AssistantPrefix + b)[..11] == AssistantPrefix;
    PrefixesExclusive(AssistantPrefix + b);
  }

  /** A turn made of its marker line alone carries the marker's body. */
  lemma SingleLineTurn(lines: seq<string>, start: nat)
    requires start < |lines| && IsMarker(lines[start])
    ensures Turn(lines, start, start + 1) == TextMessage(
      if start + 1 < |lines| && StartsWith(lines[start + 1], UserPrefix) then UserRole else MarkerRole(lines[start]).value,
      MarkerBody(lines[start]))
  {
    assert [MarkerBody(lines[start])] + lines[start + 1..start + 1] == [MarkerBody(lines[start])];
  }

  /** The four lines "User: a", "Assistant: b", "User: c", "Assistant: d". */
  function AlternatingLines(a: string, b: string, c: string, d: string): (lines: seq<string>)
    ensures |lines| == 4
  {
    [UserPrefix + a, AssistantPrefix + b, UserPrefix + c, AssistantPrefix + d]
  }

  lemma AlternatingMarkers(a: string, b: string, c: string, d: string)
    ensures Markers(AlternatingLines(a, b, c, d), 4) == [0, 1, 2, 3]
  {
    var lines := AlternatingLines(a, b, c, d);
    UserLineOf(a);
    AssistantLineOf(b);
    UserLineOf(c);
    AssistantLineOf(d);
    assert Markers(lines, 1) == [0];
    assert Markers(lines, 2) == [0, 1];
    assert Markers(lines, 3) == [0, 1, 2];
  }

  lemma AlternatingTurns(a: string, b: string, c: string, d: string)
    ensures FlushedTurns(AlternatingLines(a, b, c, d), [0, 1, 2, 3], 4)
      == [TextMessage(UserRole, a), TextMessage(UserRole, b), TextMessage(UserRole, c), TextMessage(AssistantRole, d)]
  {
    var lines := AlternatingLines(a, b, c, d);
    var m := [0, 1, 2, 3];
    UserLineOf(a);
    AssistantLineOf(b);
    UserLineOf(c);
    AssistantLineOf(d);
    SingleLineTurn(lines, 0);
    SingleLineTurn(lines, 1);
    SingleLineTurn(lines, 2);
    SingleLineTurn(lines, 3);
    assert FlushedTurns(lines, m, 1) == [TextMessage(UserRole, a)];
    assert FlushedTurns(lines, m, 2) == [TextMessage(UserRole, a), TextMessage(UserRole, b)];
    assert FlushedTurns(lines, m, 3) == [TextMessage(UserRole, a), TextMessage(UserRole, b), TextMessage(UserRole, c)];
  }

  /**
   * A transcript that alternates "User: " and "Assistant: " lines does not
   * come out alternating: each turn followed by a "User: " line is flushed
   * as "user", so the roles are user, user, user, assistant.
   */
  lemma AlternatingTranscript(a: string, b: string, c: string, d: string)
    requires '\n' !in a && '\n' !in b && '\n' !in c && '\n' !in d
    ensures ParsedHistory(Some(Join(AlternatingLines(a, b, c, d), "\n")))
      == [TextMessage(UserRole, a), TextMessage(UserRole, b), TextMessage(UserRole, c), TextMessage(AssistantRole, d)]
  {
    var lines := AlternatingLines(a, b, c, d);
    assert forall k :: 0 <= k < |lines| ==> '\n' !in lines[k];
    SplitJoin(lines);
    assert Join(lines, "\n") != "" by {
      assert |Join(lines, "\n")| > 0;
    }
    AlternatingMarkers(a, b, c, d);
    AlternatingTurns(a, b, c, d);
  }
}
