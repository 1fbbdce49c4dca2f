/**
 * downloadAudio.js: turning a captured Space into an ffmpeg download
 * (`downloadSpaceAudio`) and downloading a list of them (`downloadMultipleSpaces`).
 * ffmpeg is an oracle from the command line to its outcome; the clock is the
 * ISO-8601 timestamp `new Date().toISOString()` returned at each call.
 */
module DownloadAudio {
  import opened Wrappers
  import opened Text

  const InvalidSpaceMessage: string := "Invalid space info: missing HLS URL"
  const UnknownAccount: string := "unknown"
  const DefaultSession: string := "session"
  const Extension: string := ".mp3"

  /** The fields of a space-info object that the download reads; any may be missing. */
  datatype SpaceInfo = SpaceInfo(account: Option<string>, hlsUrl: Option<string>, sessionId: Option<string>)

  /** `s.replace(c, "")` with a one-character string pattern: the first `c` goes. */
  function RemoveFirst(s: string, c: char): (r: string)
    ensures c !in s ==> r == s
    ensures c in s ==> |r| == |s| - 1
    decreases |s|
  {
    if |s| == 0 then s
    else if s[0] == c then s[1..]
    else [s[0]] + RemoveFirst(s[1..], c)
  }

  /** The character removed is the first occurrence, wherever it is. */
  lemma {:induction false} RemoveFirstAt(s: string, c: char, i: nat)
    requires i < |s| && s[i] == c && c !in s[..i]
    ensures RemoveFirst(s, c) == s[..i] + s[i + 1..]
    decreases i
  {
    if i > 0 {
      assert s[0] in s[..i];
      assert s[1..][..i - 1] == s[1..i];
      RemoveFirstAt(s[1..], c, i - 1);
      assert s[..i] == [s[0]] + s[1..i];
    }
  }

  /** `spaceInfo.account?.replace("@", "") || "unknown"`. */
  function AccountComponent(account: Option<string>): (r: string)
    ensures r != ""
    ensures account.None? ==> r == UnknownAccount
    ensures account.Some? && '@' !in account.value && account.value != "" ==> r == account.value
  {
    match account
    case None => UnknownAccount
    case Some(a) =>
      var stripped := RemoveFirst(a, '@');
      if stripped == "" then UnknownAccount else stripped
  }

  lemma AccountComponentExamples()
    ensures AccountComponent(Some("a@b")) == "ab"
    ensures AccountComponent(Some("@alice")) == "alice"
    ensures AccountComponent(Some("@@x")) == "@x"
    ensures AccountComponent(Some("@")) == UnknownAccount
    ensures AccountComponent(Some("")) == UnknownAccount
    ensures AccountComponent(None) == UnknownAccount
  {
    RemoveFirstAt("a@b", '@', 1);
    assert "a@b"[..1] + "a@b"[2..] == "ab";
    RemoveFirstAt("@alice", '@', 0);
    RemoveFirstAt("@@x", '@', 0);
    RemoveFirstAt("@", '@', 0);
  }

  /**
   * An account with an `@` loses its first `@`, wherever it is, and falls
   * back to "unknown" when nothing is left.
   */
  lemma AccountComponentAt(a: string, i: nat)
    requires i < |a| && a[i] == '@' && '@' !in a[..i]
    ensures AccountComponent(Some(a)) == if a[..i] + a[i + 1..] == "" then UnknownAccount else a[..i] + a[i + 1..]
  {
    RemoveFirstAt(a, '@', i);
  }

  /** `spaceInfo.sessionId || "session"`. */
  function SessionComponent(sessionId: Option<string>): (r: string)
    ensures r != ""
    ensures Truthy(sessionId) ==> r == sessionId.value
    ensures !Truthy(sessionId) ==> r == DefaultSession
  {
    if Truthy(sessionId) then sessionId.value else DefaultSession
  }

  predicate IsSeparator(ch: char) {
    ch == ':' || ch == '.'
  }

  /** `timestamp.replace(/[:.]/g, "-")`. */
  function ReplaceSeparators(s: string): (r: string)
    ensures |r| == |s|
    ensures forall i :: 0 <= i < |s| ==> r[i] == if IsSeparator(s[i]) then '-' else s[i]
    ensures ':' !in r && '.' !in r
    decreases |s|
  {
    if |s| == 0 then s
    else [if IsSeparator(s[0]) then '-' else s[0]] + ReplaceSeparators(s[1..])
  }

  /** The file name `<account>_<session>_<timestamp>.mp3`. */
  function OutputFilename(space: SpaceInfo, iso: string): (name: string)
    ensures var account, session := AccountComponent(space.account), SessionComponent(space.sessionId);
      && |name| == |account| + |session| + |iso| + 6
      && name[..|account| + 1] == account + "_"
      && name[|account| + 1..|account| + 1 + |session| + 1] == session + "_"
      && name[|name| - 4 - |iso|..|name| - 4] == ReplaceSeparators(iso)
      && name[|name| - 4..] == Extension
  {
    AccountComponent(space.account) + "_" + SessionComponent(space.sessionId) + "_" + ReplaceSeparators(iso) + Extension
  }

  /** `path.join(dir, file)`, without its normalisation. */
  function JoinPath(dir: string, file: string): string {
    dir + "/" + file
  }

  /** Different files in one directory get different paths. */
  lemma JoinPathInjective(dir: string, f1: string, f2: string)
    ensures JoinPath(dir, f1) == JoinPath(dir, f2) <==> f1 == f2
  {
    if JoinPath(dir, f1) == JoinPath(dir, f2) {
      assert f1 == JoinPath(dir, f1)[|dir| + 1..];
      assert f2 == JoinPath(dir, f2)[|dir| + 1..];
    }
  }

  /** The command line up to the input URL, and between the URL and the output path. */
  const CommandHead: string := "ffmpeg -i \""
  const CommandMiddle: string := "\" -c:a libmp3lame -q:a 2 \""

  /** The ffmpeg command line, with both paths quoted. */
  function FfmpegCommand(hlsUrl: string, outputPath: string): string {
    CommandHead + hlsUrl + CommandMiddle + outputPath + "\""
  }

  /** A shorter quote-free URL is followed by the closing quote where a longer one is not. */
  lemma ShorterUrlDiffers(u1: string, p1: string, u2: string, p2: string)
    requires '"' !in u2 && |u1| < |u2|
    ensures FfmpegCommand(u1, p1) != FfmpegCommand(u2, p2)
  {
    var h := |CommandHead|;
    assert FfmpegCommand(u1, p1)[h + |u1|] == CommandMiddle[0];
    assert FfmpegCommand(u2, p2)[h + |u1|] == u2[|u1|];
  }

  /**
   * The command line names its input and output unambiguously: for URLs
   * without a double quote, equal commands have equal URLs and equal paths.
   */
  lemma FfmpegCommandInjective(u1: string, p1: string, u2: string, p2: string)
    requires '"' !in u1 && '"' !in u2
    ensures FfmpegCommand(u1, p1) == FfmpegCommand(u2, p2) <==> u1 == u2 && p1 == p2
  {
    var c1, c2 := FfmpegCommand(u1, p1), FfmpegCommand(u2, p2);
    if c1 == c2 {
      var h := |CommandHead|;
      if |u1| != |u2| {
        if |u1| < |u2| {
          ShorterUrlDiffers(u1, p1, u2, p2);
        } else {
          ShorterUrlDiffers(u2, p2, u1, p1);
        }
      }
      assert u1 == c1[h..h + |u1|];
      assert u2 == c2[h..h + |u2|];
      var m := h + |u1| + |CommandMiddle|;
      assert p1 == c1[m..|c1| - 1];
      assert p2 == c2[m..|c2| - 1];
    }
  }

  /** What the ffmpeg subprocess reports. */
  datatype ExecResult = ExecOk | ExecFailed(message: string)

  /** Effects on the outside world, in order. */
  datatype Effect = EnsureDirectory(dir: string) | RunCommand(command: string)

  /** A returned path, or the message of the thrown error. */
  datatype DownloadOutcome = Saved(path: string) | Rejected(message: string)

  datatype Download = Download(outcome: DownloadOutcome, effects: seq<Effect>)

  /** `downloadSpaceAudio`. */
  function DownloadSpaceAudio(space: SpaceInfo, outputDir: string, iso: string, exec: string -> ExecResult): (d: Download)
    ensures !Truthy(space.hlsUrl) <==> d.effects == []
    ensures !Truthy(space.hlsUrl) ==> d.outcome == Rejected(InvalidSpaceMessage)
    ensures Truthy(space.hlsUrl) ==>
      var path := JoinPath(outputDir, OutputFilename(space, iso));
      var command := FfmpegCommand(space.hlsUrl.value, path);
      && d.effects == [EnsureDirectory(outputDir), RunCommand(command)]
      && (d.outcome.Saved? <==> exec(command) == ExecOk)
      && (d.outcome.Saved? ==> d.outcome.path == path)
      && (d.outcome.Rejected? ==> d.outcome.message == exec(command).message)
  {
    if !Truthy(space.hlsUrl) then Download(Rejected(InvalidSpaceMessage), [])
    else
      var outputPath := JoinPath(outputDir, OutputFilename(space, iso));
      var command := FfmpegCommand(space.hlsUrl.value, outputPath);
      var effects := [EnsureDirectory(outputDir), RunCommand(command)];
      match exec(command)
      case ExecOk => Download(Saved(outputPath), effects)
      case ExecFailed(message) => Download(Rejected(message), effects)
  }

  /** A rejected space is rejected whatever the clock and ffmpeg would do. */
  lemma ValidationComesFirst(space: SpaceInfo, dir: string, iso1: string, iso2: string,
                             exec1: string -> ExecResult, exec2: string -> ExecResult)
    requires !Truthy(space.hlsUrl)
    ensures DownloadSpaceAudio(space, dir, iso1, exec1) == DownloadSpaceAudio(space, dir, iso2, exec2)
  {
  }

  /** One element of the batch result. */
  datatype BatchEntry =
    | Downloaded(account: Option<string>, filePath: string)
    | DownloadFailed(account: Option<string>, error: string)

  /** The entry the batch pushes for a space, from how its download ended. */
  function EntryFor(space: SpaceInfo, outcome: DownloadOutcome): (e: BatchEntry)
    ensures e.account == space.account
    ensures e.Downloaded? <==> outcome.Saved?
    ensures e.Downloaded? ==> e.filePath == outcome.path
    ensures e.DownloadFailed? ==> e.error == outcome.message
  {
    match outcome
    case Saved(path) => Downloaded(space.account, path)
    case Rejected(message) => DownloadFailed(space.account, message)
  }

  /**
   * `downloadMultipleSpaces`: every space is downloaded in turn, a failure
   * is caught and recorded, and the loop goes on. `clock[i]` is the time
   * read by the `i`-th download.
   */
  method DownloadMultipleSpaces(spaces: seq<SpaceInfo>, outputDir: string, clock: seq<string>,
                                exec: string -> ExecResult)
    returns (results: seq<BatchEntry>)
    requires |clock| == |spaces|
    ensures |results| == |spaces|
    ensures forall i :: 0 <= i < |spaces| ==> results[i].account == spaces[i].account
    ensures forall i :: 0 <= i < |spaces| ==>
      var outcome := DownloadSpaceAudio(spaces[i], outputDir, clock[i], exec).outcome;
      && (results[i].Downloaded? <==> outcome.Saved?)
      && (results[i].Downloaded? ==> results[i].filePath == outcome.path)
      && (results[i].DownloadFailed? ==> results[i].error == outcome.message)
  {
    results := [];
    var i := 0;
    while i < |spaces|
      invariant 0 <= i <= |spaces|
      invariant |results| == i
      invariant forall j :: 0 <= j < i ==>
        results[j] == EntryFor(spaces[j], DownloadSpaceAudio(spaces[j], outputDir, clock[j], exec).outcome)
    {
      var space := spaces[i];
      var download := DownloadSpaceAudio(space, outputDir, clock[i], exec);
      results := results + [EntryFor(space, download.outcome)];
      i := i + 1;
    }
  }
}
