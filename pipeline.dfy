/**
 * index.js hands the Spaces that `checkLiveSpaces` captured to
 * `downloadMultipleSpaces`. This module states what the two halves promise
 * each other.
 */
module Pipeline {
  import opened Wrappers
  import opened Text
  import opened Interception
  import opened LiveSpaces
  import opened DownloadAudio

  /** A captured Space read as the object the download receives. */
  function AsSpaceInfo(space: LiveSpace): SpaceInfo {
    SpaceInfo(Some(space.account), Some(space.hlsUrl), Some(space.sessionId))
  }

  /**
   * Every Space a completed poll returns passes the download's validation,
   * and its file name carries the captured session id.
   */
  lemma CapturedSpacesAreDownloadable(accounts: seq<string>, views: seq<PageView>, k: nat,
                                      outputDir: string, iso: string, exec: string -> ExecResult)
    requires |accounts| == |views|
    requires Poll(accounts, Visits(accounts, views)).outcome.Completed?
    requires k < |Poll(accounts, Visits(accounts, views)).outcome.spaces|
    ensures var space := Poll(accounts, Visits(accounts, views)).outcome.spaces[k];
      && space.account in accounts
      && DownloadSpaceAudio(AsSpaceInfo(space), outputDir, iso, exec).effects != []
      && SessionComponent(AsSpaceInfo(space).sessionId) == space.sessionId
  {
    var visits := Visits(accounts, views);
    CompletedMeansNoJoinTimeout(accounts, visits);
    PollCollectsRecords(accounts, visits);
    RecordsAreTagged(accounts, views);
    var space := Poll(accounts, visits).outcome.spaces[k];
    assert space in Records(visits);
    assert space.hlsUrl != "" by {
      if space.hlsUrl == "" {
        ContainsIff(space.hlsUrl, ProviderMarker);
      }
    }
  }

  /**
   * The file name drops the first `@` anywhere, the profile path only a
   * leading one; they agree on an `@`-prefixed account with one `@`.
   */
  lemma FilenameAccountVersusProfileName(name: string)
    requires name != "" && '@' !in name
    ensures AccountComponent(Some("@" + name)) == AccountName("@" + name) == name
  {
    RemoveFirstAt("@" + name, '@', 0);
    assert ("@" + name)[1..] == name;
  }

  /** The two strippings differ on an account with an inner `@`. */
  lemma InnerMarkerStrippedOnlyInFilename()
    ensures AccountName("a@b") == "a@b"
    ensures AccountComponent(Some("a@b")) == "ab"
  {
    assert "a@b"[..1] == "a";
    AccountComponentExamples();
  }
}
