/**
 * The parts of app.js that read Shortcut records: the aggregation in
 * `notify_uploadCompletion`, which joins the destinations of a session's
 * `'file'` shortcuts with `';'` and asks for a `'zip'` shortcut when there
 * is more than one, and the dispatch in `downloadFile`, which turns a
 * shortcut lookup into a status, one file, or a list of zip entries.
 *
 * The shortcut store itself (shortcuts.js) is not part of this model: a
 * session's shortcuts are given as a sequence in iteration order, and the
 * store's key lookup as a map.
 */
module Shortcuts {
  import opened Env
  import opened Delimited

  /**
   * A Shortcut record; any field may be `undefined`. The modelled code reads
   * only the content type, destination and original name; the key, session,
   * owner and length are carried to mirror the store's record.
   */
  datatype Shortcut = Shortcut(
    shortcutkey: string,
    contenttype: Option<string>,
    destination: Option<string>,
    originalname: Option<string>,
    sessionid: Option<string>,
    owneruserid: Option<string>,
    contentlength: Option<int>)

  /** The separator between member destinations of a `'zip'` shortcut. */
  const Separator: char := ';'

  predicate IsFile(s: Shortcut) {
    s.contenttype == Some("file")
  }

  /** The `'file'` shortcuts of a group, in iteration order. */
  function FileShortcuts(group: seq<Shortcut>): (r: seq<Shortcut>)
    ensures |r| <= |group|
    ensures forall i :: 0 <= i < |r| ==> IsFile(r[i])
    ensures forall s :: s in r <==> s in group && IsFile(s)
    decreases |group|
  {
    if |group| == 0 then []
    else
      var last := group[|group| - 1];
      FileShortcuts(group[..|group| - 1]) + (if IsFile(last) then [last] else [])
  }

  /** Filtering keeps iteration order: the files of a concatenation are the files of each part, in turn. */
  lemma {:induction false} FileShortcutsAppend(a: seq<Shortcut>, b: seq<Shortcut>)
    ensures FileShortcuts(a + b) == FileShortcuts(a) + FileShortcuts(b)
    decreases |b|
  {
    if |b| > 0 {
      var ab := a + b;
      assert ab[..|ab| - 1] == a + b[..|b| - 1];
      assert ab[|ab| - 1] == b[|b| - 1];
      FileShortcutsAppend(a, b[..|b| - 1]);
    } else {
      assert a + b == a;
    }
  }

  /** Each destination as `+=` renders it: `undefined` becomes "undefined". */
  function Destinations(files: seq<Shortcut>): (r: seq<string>)
    ensures |r| == |files|
  {
    seq(|files|, i requires 0 <= i < |files| => AsString(files[i].destination))
  }

  /**
   * The destination list of the zip shortcut: the members' destinations
   * joined with `';'`. A separator is only written after non-empty text,
   * so empty destinations at the front leave no trace.
   */
  function ZipDestinations(files: seq<Shortcut>): string {
    Join(DropLeadingEmpty(Destinations(files)), Separator)
  }

  /** Every member has a non-empty destination free of the separator. */
  predicate CleanDestinations(files: seq<Shortcut>) {
    forall i :: 0 <= i < |files| ==>
      files[i].destination.Some? && files[i].destination.value != "" && Separator !in files[i].destination.value
  }

  /** The destinations of members with clean destinations. */
  function Paths(files: seq<Shortcut>): (r: seq<string>)
    requires CleanDestinations(files)
    ensures |r| == |files|
  {
    seq(|files|, i requires 0 <= i < |files| && CleanDestinations(files) => files[i].destination.value)
  }

  /** Splitting the zip destination list on `';'` gives back each member's destination, in order. */
  lemma ZipDestinationsRoundTrip(files: seq<Shortcut>)
    requires |files| >= 1
    requires CleanDestinations(files)
    ensures Split(ZipDestinations(files), Separator) == Paths(files)
  {
    var ds := Destinations(files);
    assert ds == Paths(files);
    DropLeadingEmptyKeeps(ds);
    SplitJoin(ds, Separator);
  }

  /**
   * One step of the aggregation loop: appending a member adds `';'` and its
   * destination, the separator only when the list so far is non-empty.
   */
  lemma AppendDestination(files: seq<Shortcut>, next: Shortcut, destinations: string)
    requires destinations == ZipDestinations(files)
    ensures ZipDestinations(files + [next])
            == (if destinations != "" then destinations + [Separator] else destinations) + AsString(next.destination)
  {
    var d := AsString(next.destination);
    var before := Destinations(files);
    assert Destinations(files + [next]) == before + [d];
    DropLeadingEmptySnoc(before, d);
    var kept := DropLeadingEmpty(before);
    if kept != [] {
      JoinStartsWithFirst(kept, Separator);
      JoinSnoc(kept, d, Separator);
    }
  }

  /**
   * The loop of `notify_uploadCompletion`: walks the session's shortcuts in
   * order, skips all but `'file'` ones, and appends each destination to the
   * list, preceded by `';'` once the list is non-empty.
   */
  method CollectSessionFiles(group: seq<Shortcut>) returns (files: seq<Shortcut>, destinations: string)
    ensures files == FileShortcuts(group)
    ensures destinations == ZipDestinations(files)
    ensures |files| >= 1 && CleanDestinations(files) ==> Split(destinations, Separator) == Paths(files)
  {
    files := [];
    destinations := "";
    var i := 0;
    while i < |group|
      invariant 0 <= i <= |group|
      invariant files == FileShortcuts(group[..i])
      invariant destinations == ZipDestinations(files)
    {
      var shortcut := group[i];
      assert group[..i + 1][..i] == group[..i];
      if IsFile(shortcut) {
        AppendDestination(files, shortcut, destinations);
        if destinations != "" {
          destinations := destinations + [Separator];
        }
        destinations := destinations + AsString(shortcut.destination);
        files := files + [shortcut];
      }
      i := i + 1;
    }
    assert group[..|group|] == group;
    if |files| >= 1 && CleanDestinations(files) {
      ZipDestinationsRoundTrip(files);
    }
  }

  /** `generateZipFileName`: the recipient's address, a timestamp, and `.zip`. */
  function ZipFileName(email: string, stamp: string): (r: string)
    ensures |r| == |email| + |stamp| + 5
    ensures r[..|email|] == email
    ensures r[|email|] == '_' && r[|email| + 1..|r| - 4] == stamp
    ensures r[|r| - 4..] == ".zip"
  {
    email + "_" + stamp + ".zip"
  }

  /** The props of the `'zip'` shortcut `notify_uploadCompletion` asks the store to create. */
  datatype ZipProps = ZipProps(destination: string, originalname: string, sessionid: string)

  /** What `notify_uploadCompletion` hands on for mailing, or that the session has no shortcuts. */
  datatype Notice = NoSession | Notice(files: seq<Shortcut>, zip: Option<ZipProps>)

  /**
   * `notify_uploadCompletion` up to the mail collaborator: nothing for a
   * session without shortcuts; otherwise the session's file shortcuts and,
   * exactly when there are at least two, a zip shortcut over all of them.
   */
  method NotifyUploadCompletion(group: Option<seq<Shortcut>>, sid: string, email: string, stamp: string)
    returns (n: Notice)
    ensures n.NoSession? <==> group.None?
    ensures n.Notice? ==> n.files == FileShortcuts(group.value)
    ensures n.Notice? ==> (n.zip.Some? <==> |n.files| > 1)
    ensures n.Notice? && n.zip.Some? ==>
              n.zip.value == ZipProps(ZipDestinations(n.files), ZipFileName(email, stamp), sid)
    ensures n.Notice? && n.zip.Some? && CleanDestinations(n.files) ==>
              Split(n.zip.value.destination, Separator) == Paths(n.files)
  {
    if group.None? {
      return NoSession;
    }
    var files, destinations := CollectSessionFiles(group.value);
    var zip := None;
    if |files| > 1 {
      zip := Some(ZipProps(destinations, ZipFileName(email, stamp), sid));
    }
    n := Notice(files, zip);
  }

  /** One member of a zip download: where the file is and the name it gets in the archive. */
  datatype ZipEntry = ZipEntry(path: string, name: string)

  /** The response `downloadFile` sends: an error status, one file, or an archive. */
  datatype Download = Refused(status: int) | SendFile(path: string) | SendZip(entries: seq<ZipEntry>, name: Option<string>)

  /** The archive entry for one member destination. */
  function EntryFor(host: Host, destination: string): ZipEntry {
    ZipEntry(host.join(host.appRoot, destination), host.basename(destination))
  }

  /** The shortcut a raw key resolves to, when its normalised key is known and it has a destination. */
  function Resolve(rawkey: string, store: map<string, Shortcut>, host: Host): Option<Shortcut> {
    var key := host.keyFromString(rawkey);
    if key.Some? && key.value in store && Truthy(store[key.value].destination)
    then Some(store[key.value]) else None
  }

  /**
   * `downloadFile`: 500 for a key that does not normalise, 404 for an
   * unknown key, 500 for a shortcut without a destination; a `'file'`
   * shortcut sends its one path under the app root, a `'zip'` shortcut one
   * entry per `';'`-separated destination; any other type is a 500.
   */
  function DownloadFile(rawkey: string, store: map<string, Shortcut>, host: Host): (r: Download)
    ensures host.keyFromString(rawkey).None? ==> r == Refused(500)
    ensures r == Refused(404) <==>
              host.keyFromString(rawkey).Some? && host.keyFromString(rawkey).value !in store
    ensures r.Refused? ==> r.status == 404 || r.status == 500
    ensures r.SendFile? <==> Resolve(rawkey, store, host).Some? && IsFile(Resolve(rawkey, store, host).value)
    ensures r.SendZip? <==>
              Resolve(rawkey, store, host).Some? && Resolve(rawkey, store, host).value.contenttype == Some("zip")
    ensures r.SendFile? ==>
              r.path == host.join(host.appRoot, Resolve(rawkey, store, host).value.destination.value)
    ensures r.SendZip? ==>
              var s := Resolve(rawkey, store, host).value;
              var parts := Split(s.destination.value, Separator);
              && r.name == s.originalname
              && |r.entries| == |parts|
              && forall i :: 0 <= i < |parts| ==> r.entries[i] == EntryFor(host, parts[i])
  {
    var key := host.keyFromString(rawkey);
    if key.None? then Refused(500)
    else if key.value !in store then Refused(404)
    else
      var s := store[key.value];
      if !Truthy(s.destination) then Refused(500)
      else if s.contenttype == Some("file") then SendFile(host.join(host.appRoot, s.destination.value))
      else if s.contenttype == Some("zip") then
        var parts := Split(s.destination.value, Separator);
        SendZip(seq(|parts|, i requires 0 <= i < |parts| => EntryFor(host, parts[i])), s.originalname)
      else Refused(500)
  }

  /**
   * Downloading a zip shortcut whose destination list was aggregated from
   * files with clean destinations serves exactly those files, in order.
   */
  lemma ZipDownloadServesEachFile(rawkey: string, store: map<string, Shortcut>, host: Host, files: seq<Shortcut>)
    requires |files| >= 1 && CleanDestinations(files)
    requires host.keyFromString(rawkey).Some? && host.keyFromString(rawkey).value in store
    requires store[host.keyFromString(rawkey).value].contenttype == Some("zip")
    requires store[host.keyFromString(rawkey).value].destination == Some(ZipDestinations(files))
    ensures DownloadFile(rawkey, store, host)
            == SendZip(seq(|files|, i requires 0 <= i < |files| && CleanDestinations(files) =>
                             EntryFor(host, files[i].destination.value)),
                       store[host.keyFromString(rawkey).value].originalname)
  {
    ZipDestinationsRoundTrip(files);
    var ds := Destinations(files);
    assert ds[0] != "";
    DropLeadingEmptyKeeps(ds);
    JoinStartsWithFirst(ds, Separator);
  }
}
