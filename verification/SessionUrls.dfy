/** The URLs of a manifest session: what is fetched or received, what is taken to be the manifest,
    and what location is announced. */
module SessionUrls {
  import opened Basics
  import opened PullObjectIngester

  /** The parameters of a distribution session. An entry of `pullUrls` can be missing. */
  datatype Session = Session(
    acquisitionMethod: string,
    ingestBase: Option<string>,
    distributionBase: Option<string>,
    pullUrls: Option<seq<Option<string>>>,
    pushId: Option<string>)

  /** With `size_t` positions: for "/" the end lies in front of the start, and `substr` then takes
      everything from the start. */
  function TrimSlashes(path: string): string {
    var start := if StartsWith(path, "/") then 1 else 0;
    var end := if EndsWith(path, "/") then |path| - 1 else |path|;
    if end < start then path[start..] else path[start..end]
  }

  predicate IsAbsolute(url: string) {
    StartsWith(url, "https:") || StartsWith(url, "http:") || StartsWith(url, "//")
  }

  function Join(base: string, path: string): string {
    (if EndsWith(base, "/") then base else base + "/") + TrimSlashes(path)
  }

  // ----- Setting a session up -----

  const DEFAULT_PUSH_ID := "manifest"

  predicate ValidPull(session: Session) {
    session.acquisitionMethod == "PULL" ==>
      && (session.pullUrls.Some? ==> |session.pullUrls.value| == 1)
      && session.pushId.None?
  }

  predicate ValidPush(session: Session) {
    session.acquisitionMethod == "PUSH" ==> session.pullUrls.None?
  }

  /** What the controller's constructor makes of the session; a push session gets the prefix of the
      push server as its ingest base. */
  function Prepared(session: Session, serverPrefix: string): Session {
    if session.acquisitionMethod == "PUSH"
    then session.(pushId := if session.pushId.None? then Some(DEFAULT_PUSH_ID) else session.pushId,
                  ingestBase := Some(serverPrefix))
    else session
  }

  /** The URL fetched for one entry; `None` when the entry is skipped. Without an ingest base the
      URL stays empty. */
  function PullUrl(base: Option<string>, entry: Option<string>): Option<string> {
    if entry.None? || (base.Some? && IsAbsolute(entry.value)) then None
    else if base.Some? then Some(Join(base.value, entry.value))
    else Some("")
  }

  function PullItem(session: Session, entry: Option<string>, id: string): seq<IngestItem> {
    var url := PullUrl(session.ingestBase, entry);
    if url.None? then []
    else [IngestItem(id, url.value, entry.value, session.ingestBase, session.distributionBase, None)]
  }

  /** The items of the pull ingester, the `n`th one with the id `ids(n)`. */
  function PullItems(session: Session, entries: seq<Option<string>>, ids: nat -> string): seq<IngestItem> {
    if entries == [] then []
    else
      var front := PullItems(session, entries[..|entries| - 1], ids);
      front + PullItem(session, entries[|entries| - 1], ids(|front|))
  }

  function EntriesOf(session: Session): seq<Option<string>> {
    if session.pullUrls.Some? then session.pullUrls.value else []
  }

  // ----- The manifest URL -----

  function PulledManifest(base: Option<string>, entries: seq<Option<string>>): string {
    if entries == [] then ""
    else
      var url := PullUrl(base, entries[|entries| - 1]);
      if base.Some? && url.Some? then url.value else PulledManifest(base, entries[..|entries| - 1])
  }

  /** The last relative pull URL, unless there is a relative push id. */
  function ManifestUrl(session: Session): string {
    if session.pushId.Some? && session.ingestBase.Some? && !IsAbsolute(session.pushId.value)
    then Join(session.ingestBase.value, session.pushId.value)
    else PulledManifest(session.ingestBase, EntriesOf(session))
  }

  // ----- The URLs written out -----

  /** Trimming takes off one slash in front and one at the end, and nothing else. */
  lemma TrimmedExactly(path: string)
    ensures path != "/" ==>
              path == (if path != "" && path[0] == '/' then "/" else "") + TrimSlashes(path)
                    + (if path != "" && path[|path| - 1] == '/' then "/" else "")
    ensures TrimSlashes("/") == ""
  {
  }

  /** `path` is `name` with at most one slash in front and one at the end, which are not part of the
      name: every path has one name. */
  predicate Names(path: string, name: string) {
    if path == "/" then name == ""
    else path == (if path != "" && path[0] == '/' then "/" else "") + name
                 + (if path != "" && path[|path| - 1] == '/' then "/" else "")
  }

  lemma TrimmedName(path: string, name: string)
    requires Names(path, name)
    ensures TrimSlashes(path) == name
  {
    if path != "/" {
      TrimmedExactly(path);
      var front, back := if path != "" && path[0] == '/' then "/" else "", if path != "" && path[|path| - 1] == '/' then "/" else "";
      assert |name| == |TrimSlashes(path)|;
      assert (front + name + back)[|front|..|front| + |name|] == name;
      assert (front + TrimSlashes(path) + back)[|front|..|front| + |name|] == TrimSlashes(path);
    }
  }

  /** With one slash between base and name, whatever slashes there were. */
  lemma JoinedUrl(base: string, path: string, name: string)
    requires Names(path, name)
    ensures Join(base, path) == (if base != "" && base[|base| - 1] == '/' then base + name else base + "/" + name)
  {
    hide TrimSlashes, Names;
    TrimmedName(path, name);
    assert EndsWith(base, "/") <==> base != "" && base[|base| - 1] == '/';
  }

  /** A session with an ingest base and one relative pull URL. */
  lemma RelativePullUrl(session: Session, base: string, path: string, name: string, ids: nat -> string)
    requires session.ingestBase == Some(base) && session.pullUrls == Some([Some(path)]) && session.pushId == None
    requires Names(path, name)
    requires !StartsWith(path, "https:") && !StartsWith(path, "http:") && !StartsWith(path, "//")
    ensures PullItems(session, EntriesOf(session), ids)
         == [IngestItem(ids(0), if base != "" && base[|base| - 1] == '/' then base + name else base + "/" + name, path,
                        Some(base), session.distributionBase, None)]
    ensures ManifestUrl(session) == (if base != "" && base[|base| - 1] == '/' then base + name else base + "/" + name)
  {
    hide Join, Names;
    JoinedUrl(base, path, name);
    OneEntry(session, Some(path), ids);
  }

  lemma OneEntry(session: Session, entry: Option<string>, ids: nat -> string)
    ensures PullItems(session, [entry], ids) == PullItem(session, entry, ids(0))
    ensures PulledManifest(session.ingestBase, [entry])
         == if session.ingestBase.Some? && PullUrl(session.ingestBase, entry).Some? then PullUrl(session.ingestBase, entry).value else ""
  {
    assert [entry][..0] == [];
    assert PullItems(session, [], ids) == [];
    assert PullItems(session, [entry], ids) == [] + PullItem(session, entry, ids(0));
    assert PulledManifest(session.ingestBase, []) == "";
  }

  /** An absolute pull URL is not fetched and not the manifest; without an ingest base the URL is
      left empty. */
  lemma OtherPullUrls(session: Session, path: string, ids: nat -> string)
    requires session.pullUrls == Some([Some(path)]) && session.pushId == None
    ensures session.ingestBase.None? || StartsWith(path, "https:") || StartsWith(path, "http:") || StartsWith(path, "//") ==>
              ManifestUrl(session) == ""
    ensures session.ingestBase.Some? && (StartsWith(path, "https:") || StartsWith(path, "http:") || StartsWith(path, "//")) ==>
              PullItems(session, EntriesOf(session), ids) == []
    ensures session.ingestBase.None? ==>
              PullItems(session, EntriesOf(session), ids) == [IngestItem(ids(0), "", path, None, session.distributionBase, None)]
  {
    hide Join;
    OneEntry(session, Some(path), ids);
  }

  /** Further entries: an item for each that is neither missing nor absolute, and the last relative
      one is the manifest. */
  lemma NextEntry(session: Session, entries: seq<Option<string>>, entry: Option<string>, ids: nat -> string)
    requires session.ingestBase.Some?
    ensures var usable := entry.Some? && !StartsWith(entry.value, "https:") && !StartsWith(entry.value, "http:")
                          && !StartsWith(entry.value, "//");
            var items := PullItems(session, entries, ids);
            && PullItems(session, entries + [entry], ids)
               == items + (if usable
                           then [IngestItem(ids(|items|), Join(session.ingestBase.value, entry.value), entry.value,
                                            session.ingestBase, session.distributionBase, None)]
                           else [])
            && PulledManifest(session.ingestBase, entries + [entry])
               == if usable then Join(session.ingestBase.value, entry.value) else PulledManifest(session.ingestBase, entries)
  {
    hide Join;
    assert (entries + [entry])[..|entries + [entry]| - 1] == entries;
  }

  /** The push id names the manifest, unless it is absolute. */
  lemma PushIdIsManifest(session: Session, base: string, id: string, name: string)
    requires session.ingestBase == Some(base) && session.pushId == Some(id)
    ensures (Names(id, name) && !StartsWith(id, "https:") && !StartsWith(id, "http:") && !StartsWith(id, "//")) ==>
              ManifestUrl(session) == (if base != "" && base[|base| - 1] == '/' then base + name else base + "/" + name)
    ensures (StartsWith(id, "https:") || StartsWith(id, "http:") || StartsWith(id, "//")) && session.pullUrls.None? ==>
              ManifestUrl(session) == ""
  {
    hide Join, Names;
    if Names(id, name) {
      JoinedUrl(base, id, name);
    }
  }

  /** A valid PULL session: whatever its ingester fetches has the URL that the controller takes to
      be the manifest, and it fetches its one relative URL. */
  lemma PulledUrlIsManifestUrl(session: Session, ids: nat -> string)
    requires session.acquisitionMethod == "PULL" && ValidPull(session)
    ensures forall k :: 0 <= k < |PullItems(session, EntriesOf(session), ids)| ==>
              PullItems(session, EntriesOf(session), ids)[k].url == ManifestUrl(session)
    ensures |PullItems(session, EntriesOf(session), ids)|
         == if session.pullUrls.Some? && PullUrl(session.ingestBase, session.pullUrls.value[0]).Some? then 1 else 0
  {
    var entries := EntriesOf(session);
    if entries != [] {
      assert entries[..|entries| - 1] == [];
      assert PullItems(session, [], ids) == [];
      assert PullItems(session, entries, ids) == [] + PullItem(session, entries[0], ids(0)) == PullItem(session, entries[0], ids(0));
      assert PulledManifest(session.ingestBase, []) == "";
    }
  }

  // ----- Pushed objects -----

  /** `validate_push_url`: equal up to a slash in front that only one of the two has. */
  predicate AcceptsPush(session: Session, url: string) {
    session.pushId.Some? ==>
      var id := session.pushId.value;
      if StartsWith(id, "/") && !StartsWith(url, "/") then id == "/" + url
      else if StartsWith(url, "/") && !StartsWith(id, "/") then "/" + id == url
      else id == url
  }

  /** The URL under which a pushed object is stored. */
  function PushedUrl(serverPrefix: string, url: string): string {
    if StartsWith(url, "/") then serverPrefix + url[1..] else url
  }

  /** Trimming takes off just the slash in front exactly when there is none at the end, or no more
      than the one. */
  lemma TrimmedTail(path: string)
    ensures TrimSlashes(path) == (if StartsWith(path, "/") then path[1..] else path) <==> path == "/" || !EndsWith(path, "/")
    ensures |TrimSlashes(path)| >= |path| - 2
  {
    var rest := if StartsWith(path, "/") then path[1..] else path;
    if path == "/" {
      assert TrimSlashes(path) == [] == rest;
    } else if EndsWith(path, "/") {
      assert |TrimSlashes(path)| == |rest| - 1;
    } else {
      assert TrimSlashes(path) == rest;
    }
  }

  /** An accepted push with a path is stored under the manifest URL exactly when the push id is
      relative and does not end in a slash, unless a slash is all of it. */
  lemma PushedPathIsManifestUrlIff(session: Session, serverPrefix: string, url: string)
    requires session.acquisitionMethod == "PUSH" && ValidPush(session)
    requires EndsWith(serverPrefix, "/") && StartsWith(url, "/") && AcceptsPush(Prepared(session, serverPrefix), url)
    ensures var s := Prepared(session, serverPrefix); var id := s.pushId.value;
            (PushedUrl(serverPrefix, url) == ManifestUrl(s)) == (!IsAbsolute(id) && (id == "/" || !EndsWith(id, "/")))
  {
    var s := Prepared(session, serverPrefix);
    var id := s.pushId.value;
    if IsAbsolute(id) {
      assert ManifestUrl(s) == "";
    } else {
      TrimmedTail(id);
      var rest := if StartsWith(id, "/") then id[1..] else id;
      assert url == "/" + rest && url[1..] == rest;
      assert PushedUrl(serverPrefix, url) == serverPrefix + rest;
      assert ManifestUrl(s) == serverPrefix + TrimSlashes(id);
      SamePrefix(serverPrefix, rest, TrimSlashes(id));
    }
  }

  lemma SamePrefix(prefix: string, a: string, b: string)
    ensures prefix + a == prefix + b <==> a == b
  {
    assert (prefix + a)[|prefix|..] == a && (prefix + b)[|prefix|..] == b;
  }

  /** Without the slash in front an accepted push is stored under its bare name, which is never the
      manifest URL of a server prefix of at least three characters. */
  lemma PushedNameIsNeverManifestUrl(session: Session, serverPrefix: string, url: string)
    requires session.acquisitionMethod == "PUSH" && ValidPush(session)
    requires EndsWith(serverPrefix, "/") && |serverPrefix| >= 3 && url != "" && !StartsWith(url, "/")
    requires AcceptsPush(Prepared(session, serverPrefix), url)
    ensures PushedUrl(serverPrefix, url) != ManifestUrl(Prepared(session, serverPrefix))
  {
  }

  // ----- Announced locations -----

  /** The location of a transmitted object: the distribution base takes the place of the ingest
      base when both are there and the URL starts with the latter. */
  function Location(fetchedUrl: string, ingestBase: Option<string>, distributionBase: Option<string>): string {
    if ingestBase.Some? && ingestBase.value != "" && distributionBase.Some? && distributionBase.value != ""
       && StartsWith(fetchedUrl, ingestBase.value)
    then distributionBase.value + fetchedUrl[|ingestBase.value|..]
    else fetchedUrl
  }

  /** Without both bases the fetched URL is announced. */
  lemma LocationWithoutBases(url: string, ingestBase: Option<string>, distributionBase: Option<string>)
    requires ingestBase.None? || ingestBase == Some("") || distributionBase.None? || distributionBase == Some("")
    ensures Location(url, ingestBase, distributionBase) == url
  {
  }

  /** Swapping the bases back recovers the fetched URL exactly when that URL was under the ingest
      base, or under neither base. */
  lemma BasesSwapBackIff(url: string, ingestBase: string, distributionBase: string)
    requires ingestBase != "" && distributionBase != ""
    ensures (Location(Location(url, Some(ingestBase), Some(distributionBase)), Some(distributionBase), Some(ingestBase)) == url)
         == (StartsWith(url, ingestBase) || !StartsWith(url, distributionBase))
  {
  }

  /** A URL built from an ingest base is announced as the distribution base and the same suffix,
      and the swap can be undone. */
  lemma BuiltLocationSwapsBack(base: string, suffix: string, distributionBase: string)
    requires base != "" && distributionBase != ""
    ensures Location(base + suffix, Some(base), Some(distributionBase)) == distributionBase + suffix
    ensures Location(distributionBase + suffix, Some(distributionBase), Some(base)) == base + suffix
  {
  }

  lemma JoinedUnderTheBase(base: string, path: string)
    ensures StartsWith(Join(base, path), base)
  {
    hide TrimSlashes;
  }

  /** Every object that a session pulls carries the session's bases; with nonempty bases it is
      announced as the distribution base and what followed the ingest base, and the swap back gives
      the URL that is fetched. */
  lemma {:induction false} PulledLocationSwapsBack(session: Session, entries: seq<Option<string>>, ids: nat -> string, k: nat)
    requires session.ingestBase.Some? && session.ingestBase.value != ""
    requires session.distributionBase.Some? && session.distributionBase.value != ""
    requires k < |PullItems(session, entries, ids)|
    ensures var base, distribution := session.ingestBase.value, session.distributionBase.value;
            var item := PullItems(session, entries, ids)[k];
            var location := Location(item.url, item.ingestBaseUrl, item.distributionBaseUrl);
            && item.ingestBaseUrl == Some(base) && item.distributionBaseUrl == Some(distribution)
            && StartsWith(item.url, base)
            && location == distribution + item.url[|base|..]
            && Location(location, item.distributionBaseUrl, item.ingestBaseUrl) == item.url
  {
    hide Join, IsAbsolute, Location;
    var front := PullItems(session, entries[..|entries| - 1], ids);
    if k < |front| {
      PulledLocationSwapsBack(session, entries[..|entries| - 1], ids, k);
    } else {
      var base, entry := session.ingestBase.value, entries[|entries| - 1];
      var url := Join(base, entry.value);
      JoinedUnderTheBase(base, entry.value);
      assert url == base + url[|base|..];
      BuiltLocationSwapsBack(base, url[|base|..], session.distributionBase.value);
    }
  }

  /** What a download adds to the store is announced under the distribution base, if it was fetched
      under the ingest base, and swapping the bases back gives the URL it came from. */
  lemma DownloadIsAnnounced(item: IngestItem, redirectUrl: string, base: string, distribution: string)
    requires base != "" && distribution != "" && item.ingestBaseUrl == Some(base) && item.distributionBaseUrl == Some(distribution)
    ensures var added, url := Downloaded(item, redirectUrl), if redirectUrl == "" then item.url else redirectUrl;
            var location := Location(added.fetchedUrl, added.ingestBaseUrl, added.distributionBaseUrl);
            && location == (if StartsWith(url, base) then distribution + url[|base|..] else url)
            && (StartsWith(url, base) ==> Location(location, added.distributionBaseUrl, added.ingestBaseUrl) == url)
  {
    var url := if redirectUrl == "" then item.url else redirectUrl;
    if StartsWith(url, base) {
      assert url == base + url[|base|..];
      BuiltLocationSwapsBack(base, url[|base|..], distribution);
    }
  }

  /** Every object that a session pulls: without a redirect it is announced as the distribution base
      and what followed the ingest base. */
  lemma {:induction false} PulledObjectIsAnnounced(session: Session, entries: seq<Option<string>>, ids: nat -> string, k: nat)
    requires session.ingestBase.Some? && session.ingestBase.value != ""
    requires session.distributionBase.Some? && session.distributionBase.value != ""
    requires k < |PullItems(session, entries, ids)|
    ensures var base, distribution := session.ingestBase.value, session.distributionBase.value;
            var item := PullItems(session, entries, ids)[k];
            var added := Downloaded(item, "");
            var location := Location(added.fetchedUrl, added.ingestBaseUrl, added.distributionBaseUrl);
            && StartsWith(item.url, base) && location == distribution + item.url[|base|..]
            && Location(location, added.distributionBaseUrl, added.ingestBaseUrl) == item.url
  {
    hide PullItems, Location, Downloaded;
    PulledLocationSwapsBack(session, entries, ids, k);
    DownloadIsAnnounced(PullItems(session, entries, ids)[k], "", session.ingestBase.value, session.distributionBase.value);
  }

  // ----- The object -----

  class ObjectManifestController {
    var session: Session
    var manifestUrl: string
    var pullItems: seq<IngestItem>

    constructor (session: Session)
      ensures this.session == session && manifestUrl == "" && pullItems == []
    {
      this.session, manifestUrl, pullItems := session, "", [];
    }

    /** The validation and the ingester set-up of the constructor; `false` stands for the exception. */
    method Prepare(serverPrefix: string, ids: nat -> string) returns (ok: bool)
      modifies this
      ensures ok == (ValidPull(old(session)) && ValidPush(old(session)))
      ensures ok ==> session == Prepared(old(session), serverPrefix)
      ensures ok == (&& (old(session).acquisitionMethod == "PULL" ==>
                           old(session).pushId.None? && (old(session).pullUrls.Some? ==> |old(session).pullUrls.value| == 1))
                     && (old(session).acquisitionMethod == "PUSH" ==> old(session).pullUrls.None?))
      ensures ok && old(session).acquisitionMethod != "PUSH" ==> session == old(session)
      ensures ok && old(session).acquisitionMethod == "PUSH" ==>
                session == old(session).(ingestBase := Some(serverPrefix),
                                         pushId := if old(session).pushId.None? then Some("manifest") else old(session).pushId)
      ensures ok && session.acquisitionMethod == "PULL" ==> pullItems == PullItems(session, EntriesOf(session), ids)
    {
      if session.acquisitionMethod == "PULL" {
        if (session.pullUrls.Some? && |session.pullUrls.value| != 1) || session.pushId.Some? { return false; }
        InitPullObjectIngester(ids);
      } else if session.acquisitionMethod == "PUSH" {
        if session.pullUrls.Some? { return false; }
        if session.pushId.None? {
          session := session.(pushId := Some(DEFAULT_PUSH_ID));
        }
        session := session.(ingestBase := Some(serverPrefix));
      }
      return true;
    }

    method InitPullObjectIngester(ids: nat -> string)
      modifies this`pullItems
      ensures pullItems == PullItems(session, EntriesOf(session), ids)
    {
      hide TrimSlashes, IsAbsolute, StartsWith, EndsWith;
      pullItems := [];
      if session.pullUrls.None? { return; }
      var entries := session.pullUrls.value;
      for i := 0 to |entries|
        invariant pullItems == PullItems(session, entries[..i], ids)
      {
        assert entries[..i + 1][..i] == entries[..i];
        if entries[i].Some? {
          var path := entries[i].value;
          var url := "";
          if session.ingestBase.Some? {
            if IsAbsolute(path) { continue; }
            url := session.ingestBase.value;
            if !EndsWith(url, "/") { url := url + "/"; }
            url := url + TrimSlashes(path);
          }
          pullItems := pullItems +
            [IngestItem(ids(|pullItems|), url, path, session.ingestBase, session.distributionBase, None)];
        }
      }
      assert entries[..|entries|] == entries;
    }

    method UpdateManifestUrl()
      modifies this`manifestUrl
      ensures manifestUrl == ManifestUrl(session)
    {
      hide TrimSlashes, IsAbsolute, StartsWith, EndsWith;
      var url := "";
      if session.pullUrls.Some? {
        var entries := session.pullUrls.value;
        for i := 0 to |entries|
          invariant url == PulledManifest(session.ingestBase, entries[..i])
        {
          assert entries[..i + 1][..i] == entries[..i];
          if entries[i].Some? && session.ingestBase.Some? {
            if IsAbsolute(entries[i].value) { continue; }
            url := session.ingestBase.value;
            if !EndsWith(url, "/") { url := url + "/"; }
            url := url + TrimSlashes(entries[i].value);
          }
        }
        assert entries[..|entries|] == entries;
      }
      if session.pushId.Some? && session.ingestBase.Some? && !IsAbsolute(session.pushId.value) {
        url := session.ingestBase.value;
        if !EndsWith(url, "/") { url := url + "/"; }
        url := url + TrimSlashes(session.pushId.value);
      }
      manifestUrl := url;
    }

    /** `validate_push_url`, which puts a slash in front of the one that lacks it. */
    method ValidatePushUrl(url: string) returns (ok: bool)
      ensures ok == AcceptsPush(session, url)
      ensures ok == (session.pushId.None?
                     || var id := session.pushId.value;
                        || id == url
                        || (id == "/" + url && (url == "" || url[0] != '/'))
                        || (url == "/" + id && (id == "" || id[0] != '/')))
    {
      if session.pushId.None? { return true; }
      var id, path := session.pushId.value, url;
      if StartsWith(id, "/") && !StartsWith(path, "/") {
        path := "/" + path;
      } else if StartsWith(path, "/") && !StartsWith(id, "/") {
        id := "/" + id;
      }
      return id == path;
    }
  }
}
