/** Reading back the activity log: the `log` subcommand of both command-line
    revisions and `LogReader.recentEntries` of the menu-bar app. The log holds
    one `[timestamp] message` line per event, each ending in a line feed. */
module LogReader {
  import opened Wrappers

  /** The characters of `CharacterSet.newlines`. */
  predicate IsNewline(ch: char) {
    ch == '\n' || ch == '\U{000B}' || ch == '\U{000C}' || ch == '\r'
    || ch == '\U{0085}' || ch == '\U{2028}' || ch == '\U{2029}'
  }

  predicate NoNewline(s: string) {
    forall i | 0 <= i < |s| :: !IsNewline(s[i])
  }

  /** `components(separatedBy: .newlines)`: the pieces between newline characters,
      empty pieces included (so `"\r\n"` yields an empty piece between). */
  function SplitLines(s: string): (r: seq<string>)
    ensures |r| >= 1
    ensures forall i | 0 <= i < |r| :: NoNewline(r[i])
  {
    if s == [] then [""]
    else
      var rest := SplitLines(s[1..]);
      if IsNewline(s[0]) then [""] + rest
      else [[s[0]] + rest[0]] + rest[1..]
  }

  /** A piece without newlines glues onto the first piece of what follows. */
  lemma {:induction false} SplitPrefix(w: string, t: string)
    requires NoNewline(w)
    ensures SplitLines(w + t) == [w + SplitLines(t)[0]] + SplitLines(t)[1..]
  {
    if w != [] {
      assert (w + t)[0] == w[0];
      assert (w + t)[1..] == w[1..] + t;
      SplitPrefix(w[1..], t);
      assert [w[0]] + (w[1..] + SplitLines(t)[0]) == w + SplitLines(t)[0];
    } else {
      var r := SplitLines(t);
      assert w + t == t && w + r[0] == r[0];
      assert r == [r[0]] + r[1..];
    }
  }

  /** The text of a log made of `lines`, each written with a trailing line feed. */
  function LogText(lines: seq<string>): string {
    if lines == [] then "" else lines[0] + "\n" + LogText(lines[1..])
  }

  /** Splitting a log recovers its lines, followed by the empty piece after the
      last line feed. */
  lemma {:induction false} SplitLogText(lines: seq<string>)
    requires forall i | 0 <= i < |lines| :: NoNewline(lines[i])
    ensures SplitLines(LogText(lines)) == lines + [""]
  {
    if lines != [] {
      var rest := LogText(lines[1..]);
      SplitLogText(lines[1..]);
      assert "\n" + rest == ['\n'] + rest;
      assert ("\n" + rest)[1..] == rest;
      assert SplitLines("\n" + rest) == [""] + lines[1..] + [""];
      assert LogText(lines) == lines[0] + ("\n" + rest);
      SplitPrefix(lines[0], "\n" + rest);
      assert lines[0] + "" == lines[0];
    }
  }

  /** `filter { !$0.isEmpty }`. */
  function NonEmpty(pieces: seq<string>): (r: seq<string>)
    ensures |r| <= |pieces|
    ensures forall i | 0 <= i < |r| :: r[i] != [] && r[i] in pieces
  {
    if pieces == [] then []
    else (if pieces[0] != [] then [pieces[0]] else []) + NonEmpty(pieces[1..])
  }

  lemma {:induction false} NonEmptyKeeps(lines: seq<string>)
    requires forall i | 0 <= i < |lines| :: lines[i] != []
    ensures NonEmpty(lines + [""]) == lines
  {
    if lines != [] {
      assert (lines + [""])[1..] == lines[1..] + [""];
      NonEmptyKeeps(lines[1..]);
    } else {
      assert NonEmpty([""]) == [];
    }
  }

  /** The non-empty lines of a text. */
  function NonEmptyLines(content: string): seq<string> {
    NonEmpty(SplitLines(content))
  }

  /** `suffix(n)`: the last `n` elements, or all of them when there are fewer. */
  function Suffix(xs: seq<string>, n: nat): (r: seq<string>)
    ensures |r| == if n < |xs| then n else |xs|
    ensures r == xs[|xs| - |r|..]
  {
    if n < |xs| then xs[|xs| - n..] else xs
  }

  /** A log written line by line reads back as exactly those lines; the most
      recent `n` of them are its last `n` lines, in file order. */
  lemma LogRoundTrip(lines: seq<string>, n: nat)
    requires forall i | 0 <= i < |lines| :: lines[i] != [] && NoNewline(lines[i])
    ensures NonEmptyLines(LogText(lines)) == lines
    ensures Suffix(NonEmptyLines(LogText(lines)), n) == if n < |lines| then lines[|lines| - n..] else lines
  {
    SplitLogText(lines);
    NonEmptyKeeps(lines);
  }

  /** The log file as the commands find it. */
  datatype LogFile = Missing | Unreadable | Text(content: string)

  /** Why the `log` subcommand shows no lines. `NegativeCount` is `suffix` trapping
      on a negative `--lines`. */
  datatype LogError = NoLogFile | CouldNotRead | NegativeCount

  /** The `log` subcommand: the last `lines` non-empty lines of the log. */
  function LogTail(file: LogFile, lines: int): (r: Result<seq<string>, LogError>)
    ensures file.Missing? ==> r == Failure(NoLogFile)
    ensures file.Unreadable? ==> r == Failure(CouldNotRead)
    ensures file.Text? && lines < 0 ==> r == Failure(NegativeCount)
    ensures r.Success? <==> file.Text? && lines >= 0
    ensures r.Success? ==>
      var all := NonEmptyLines(file.content);
      && |r.value| == (if lines < |all| then lines else |all|)
      && r.value == all[|all| - |r.value|..]
      && forall i | 0 <= i < |r.value| :: r.value[i] != [] && NoNewline(r.value[i])
  {
    match file
    case Missing => Failure(NoLogFile)
    case Unreadable => Failure(CouldNotRead)
    case Text(content) =>
      if lines < 0 then Failure(NegativeCount)
      else
        var all := NonEmptyLines(content);
        assert forall i | 0 <= i < |all| :: all[i] in SplitLines(content);
        Success(Suffix(all, lines))
  }

  /** `LogReader.recentEntries(count:)`: the last `count` non-empty lines, or none
      when the log cannot be read (`None`). */
  function RecentEntries(file: Option<string>, count: nat): (r: seq<string>)
    ensures |r| <= count
    ensures file.None? ==> r == []
    ensures file.Some? ==>
      var all := NonEmptyLines(file.value);
      && |r| == (if count < |all| then count else |all|)
      && r == all[|all| - |r|..]
  {
    match file
    case None => []
    case Some(content) => Suffix(NonEmptyLines(content), count)
  }

  /** The menu's recent entries are what `diginoise log --lines count` shows for
      the same log text, and for a log written line by line they are its last
      `count` lines. */
  lemma RecentEntriesMatchLogTail(content: string, count: nat)
    ensures LogTail(Text(content), count) == Success(RecentEntries(Some(content), count))
    ensures forall lines: seq<string> |
      content == LogText(lines) && (forall i | 0 <= i < |lines| :: lines[i] != [] && NoNewline(lines[i])) ::
      RecentEntries(Some(content), count) == if count < |lines| then lines[|lines| - count..] else lines
  {
    forall lines: seq<string> |
      content == LogText(lines) && (forall i | 0 <= i < |lines| :: lines[i] != [] && NoNewline(lines[i]))
      ensures RecentEntries(Some(content), count) == if count < |lines| then lines[|lines| - count..] else lines
    {
      LogRoundTrip(lines, count);
    }
  }
}
