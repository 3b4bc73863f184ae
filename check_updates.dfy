/**
 * The update check: on start-up the application looks up the project's
 * releases and shows one notice about the latest release, unless it is the
 * running version or the user has chosen to ignore it. Ignoring records the
 * release's tag under one key of the browser's local storage.
 */
module CheckUpdates {
  import opened Wrappers

  /** The local-storage key that holds the ignored tag. */
  const IgnoreVersionKey := "ignoreUpdates"

  /** A release as the releases listing returns it. */
  datatype Release = Release(tagName: string, name: string, body: string)

  /** The notice shown about a release; it stays until dismissed and has no icon. */
  datatype Notice = Notice(release: Release, timeout: nat, icon: bool)

  /**
   * Whether a notice is due: there is a latest release (the first one
   * listed), its tag is not the running version, and it is not the tag
   * stored as ignored.
   */
  predicate ShouldNotify(releases: seq<Release>, appVersion: string, ignored: Option<string>) {
    |releases| > 0 && releases[0].tagName != appVersion && ignored != Some(releases[0].tagName)
  }

  /** The browser's local storage, as far as the check uses it. */
  class LocalStorage {
    var items: map<string, string>

    constructor (items: map<string, string>)
      ensures this.items == items
    {
      this.items := items;
    }

    /** `getItem`; `None` stands for `null`. */
    function GetItem(key: string): (r: Option<string>)
      reads this
      ensures r.Some? <==> key in items
      ensures r.Some? ==> r.value == items[key]
    {
      if key in items then Some(items[key]) else None
    }

    /** `setItem`: a later `getItem` of the key reads the value back, and every other key reads as before. */
    method SetItem(key: string, value: string)
      modifies this
      ensures items == old(items)[key := value]
      ensures GetItem(key) == Some(value)
      ensures forall other :: other != key ==> GetItem(other) == old(GetItem(other))
    {
      items := items[key := value];
    }
  }

  /**
   * `checkUpdates(appVersion)` given the fetched `releases`: the notice it
   * shows, if any. At most one notice, and only ever about the latest
   * release.
   */
  method Check(appVersion: string, releases: seq<Release>, storage: LocalStorage)
    returns (notice: Option<Notice>)
    ensures notice.Some? <==> ShouldNotify(releases, appVersion, storage.GetItem(IgnoreVersionKey))
    ensures notice.Some? ==> notice.value == Notice(releases[0], 0, false)
  {
    var lastRelease := if |releases| > 0 then Some(releases[0]) else None;
    var ignoreVersion := storage.GetItem(IgnoreVersionKey);
    if lastRelease.Some? && lastRelease.value.tagName != appVersion
       && ignoreVersion != Some(lastRelease.value.tagName) {
      notice := Some(Notice(lastRelease.value, 0, false));
    } else {
      notice := None;
    }
  }

  /** The notice's `ignore` listener: remembers its release's tag as ignored. */
  method Ignore(notice: Notice, storage: LocalStorage)
    modifies storage
    ensures storage.items == old(storage.items)[IgnoreVersionKey := notice.release.tagName]
    ensures storage.GetItem(IgnoreVersionKey) == Some(notice.release.tagName)
  {
    storage.SetItem(IgnoreVersionKey, notice.release.tagName);
  }

  // ---------------------------------------------------------------------
  // Properties of the decision
  // ---------------------------------------------------------------------

  /** Without releases nothing is shown. */
  lemma NoReleasesNoNotice(appVersion: string, ignored: Option<string>)
    ensures !ShouldNotify([], appVersion, ignored)
  {
  }

  /** Only the latest release is consulted. */
  lemma OnlyLatestMatters(r1: seq<Release>, r2: seq<Release>, appVersion: string, ignored: Option<string>)
    requires |r1| > 0 && |r2| > 0 && r1[0] == r2[0]
    ensures ShouldNotify(r1, appVersion, ignored) == ShouldNotify(r2, appVersion, ignored)
  {
  }

  /**
   * Once a release's tag is ignored, later checks whose latest release has
   * that tag show nothing, while a later release with another tag is shown
   * again (unless it is the running version).
   */
  lemma IgnoredTagSuppressed(ignoredTag: string, releases: seq<Release>, appVersion: string)
    requires |releases| > 0
    ensures releases[0].tagName == ignoredTag ==> !ShouldNotify(releases, appVersion, Some(ignoredTag))
    ensures releases[0].tagName != ignoredTag && releases[0].tagName != appVersion ==>
      ShouldNotify(releases, appVersion, Some(ignoredTag))
  {
  }

  /**
   * A whole round: a notice is shown, the user ignores it, and the next
   * check on the same releases shows nothing.
   */
  method IgnoreThenCheckAgain(appVersion: string, releases: seq<Release>, storage: LocalStorage)
    returns (first: Option<Notice>, second: Option<Notice>)
    modifies storage
    ensures first.Some? <==> ShouldNotify(releases, appVersion, old(storage.GetItem(IgnoreVersionKey)))
    ensures first.Some? ==> storage.GetItem(IgnoreVersionKey) == Some(releases[0].tagName)
    ensures first.None? ==> storage.items == old(storage.items)
    ensures second.None?
  {
    first := Check(appVersion, releases, storage);
    if first.Some? {
      Ignore(first.value, storage);
    }
    second := Check(appVersion, releases, storage);
  }
}
