/**
 * The `Directory` record of res/directories.js: constructor defaults, the
 * physical path derived from the directory id, the persisted document shape
 * written by `export` and read by `import`, and how `make` classifies the
 * answer of `fs.mkdir`.
 */
module DirectoryRecord {
  import opened Env

  /** The fields a Directory holds after `import`; any of them may be `undefined`. */
  datatype Directory = Directory(
    directoryid: Option<string>,
    sessionid: Option<string>,
    physicalpath: Option<string>,
    owneruserid: Option<string>,
    usagetype: Option<string>,
    uniqueperuser: Option<bool>,
    uniquepertype: Option<bool>,
    createddate: Option<int>,
    expiredate: Option<int>,
    limitedsize: Option<int>,
    publicupload: Option<bool>,
    publicdownload: Option<bool>,
    isenabled: Option<bool>)

  /**
   * A plain object carrying directory fields: the props handed to the
   * constructor and to `set`, and the document `export` produces. `docId`
   * is the document key `_id`.
   */
  datatype Entity = Entity(
    docId: Option<string>,
    directoryid: Option<string>,
    sessionid: Option<string>,
    physicalpath: Option<string>,
    owneruserid: Option<string>,
    usagetype: Option<string>,
    uniqueperuser: Option<bool>,
    uniquepertype: Option<bool>,
    createddate: Option<int>,
    expiredate: Option<int>,
    limitedsize: Option<int>,
    publicupload: Option<bool>,
    publicdownload: Option<bool>,
    isenabled: Option<bool>)

  /** An object with no fields set. */
  const NoFields := Entity(None, None, None, None, None, None, None, None, None, None, None, None, None, None)

  /** A Directory as the constructor leaves it: both its id and its physical path are defined. */
  predicate Built(d: Directory) {
    d.directoryid.Some? && d.physicalpath.Some?
  }

  /** `_generatePhysicalPath`: the directory id under the configured upload root. */
  function PhysicalPathFor(host: Host, id: string): string {
    host.join(host.uploadedRoot, id)
  }

  /** The object literal the constructor starts from, for generated id `id` and clock `now`. */
  function Defaults(host: Host, id: string, now: int): Entity {
    NoFields.(
      directoryid := Some(id),
      physicalpath := Some(PhysicalPathFor(host, id)),
      createddate := Some(now),
      limitedsize := Some(0),
      publicupload := Some(false),
      publicdownload := Some(false),
      isenabled := Some(true))
  }

  /** One field of `extend(base, over)`: a defined value in `over` wins, `undefined` is skipped. */
  function Override<T>(base: Option<T>, over: Option<T>): Option<T> {
    if over.Some? then over else base
  }

  /** `extend(base, over)`, a shallow copy of the defined fields of `over` onto `base`. */
  function Extend(base: Entity, over: Entity): Entity {
    Entity(
      Override(base.docId, over.docId),
      Override(base.directoryid, over.directoryid),
      Override(base.sessionid, over.sessionid),
      Override(base.physicalpath, over.physicalpath),
      Override(base.owneruserid, over.owneruserid),
      Override(base.usagetype, over.usagetype),
      Override(base.uniqueperuser, over.uniqueperuser),
      Override(base.uniquepertype, over.uniquepertype),
      Override(base.createddate, over.createddate),
      Override(base.expiredate, over.expiredate),
      Override(base.limitedsize, over.limitedsize),
      Override(base.publicupload, over.publicupload),
      Override(base.publicdownload, over.publicdownload),
      Override(base.isenabled, over.isenabled))
  }

  /** `import`: copies the fields, taking the id from `_id` when it is truthy and from `directoryid` otherwise. */
  function Import(e: Entity): (d: Directory)
    ensures Truthy(e.docId) ==> d.directoryid == e.docId
    ensures !Truthy(e.docId) ==> d.directoryid == e.directoryid
    ensures && d.sessionid == e.sessionid && d.physicalpath == e.physicalpath
            && d.owneruserid == e.owneruserid && d.usagetype == e.usagetype
            && d.uniqueperuser == e.uniqueperuser && d.uniquepertype == e.uniquepertype
            && d.createddate == e.createddate && d.expiredate == e.expiredate
            && d.limitedsize == e.limitedsize && d.publicupload == e.publicupload
            && d.publicdownload == e.publicdownload && d.isenabled == e.isenabled
  {
    Directory(
      if Truthy(e.docId) then e.docId else e.directoryid,
      e.sessionid, e.physicalpath, e.owneruserid, e.usagetype,
      e.uniqueperuser, e.uniquepertype, e.createddate, e.expiredate,
      e.limitedsize, e.publicupload, e.publicdownload, e.isenabled)
  }

  /** `export`: the persisted document, with the id stored as `_id`. */
  function Export(d: Directory): (e: Entity)
    ensures e.docId == d.directoryid && e.directoryid.None?
    ensures Import(e) == d <==> d.directoryid != Some("")
  {
    Entity(
      d.directoryid, None,
      d.sessionid, d.physicalpath, d.owneruserid, d.usagetype,
      d.uniqueperuser, d.uniquepertype, d.createddate, d.expiredate,
      d.limitedsize, d.publicupload, d.publicdownload, d.isenabled)
  }

  /**
   * `new Directory(props)`: every field props defines is kept, and the
   * others take their defaults: the generated id, the physical path derived
   * from that id, the clock, size 0, no public upload or download, enabled.
   */
  function NewDirectory(props: Entity, id: string, now: int, host: Host): (d: Directory)
    ensures Built(d)
    ensures d.directoryid
            == (if Truthy(props.docId) then props.docId
                else if props.directoryid.Some? then props.directoryid
                else Some(id))
    ensures props.physicalpath.None? ==> d.physicalpath == Some(PhysicalPathFor(host, id))
    ensures props.createddate.None? ==> d.createddate == Some(now)
    ensures props.limitedsize.None? ==> d.limitedsize == Some(0)
    ensures props.publicupload.None? ==> d.publicupload == Some(false)
    ensures props.publicdownload.None? ==> d.publicdownload == Some(false)
    ensures props.isenabled.None? ==> d.isenabled == Some(true)
    ensures props.physicalpath.Some? ==> d.physicalpath == props.physicalpath
    ensures props.createddate.Some? ==> d.createddate == props.createddate
    ensures props.limitedsize.Some? ==> d.limitedsize == props.limitedsize
    ensures props.publicupload.Some? ==> d.publicupload == props.publicupload
    ensures props.publicdownload.Some? ==> d.publicdownload == props.publicdownload
    ensures props.isenabled.Some? ==> d.isenabled == props.isenabled
    ensures && d.sessionid == props.sessionid
            && d.owneruserid == props.owneruserid
            && d.usagetype == props.usagetype
            && d.uniqueperuser == props.uniqueperuser
            && d.uniquepertype == props.uniquepertype
            && d.expiredate == props.expiredate
  {
    Import(Extend(Defaults(host, id, now), props))
  }

  /**
   * `import(export(d))` gives back every field of `d`, except that an empty
   * id is falsy as `_id` and so comes back `undefined`.
   */
  lemma ExportImportRoundTrip(d: Directory)
    ensures Import(Export(d)) == d <==> d.directoryid != Some("")
    ensures d.directoryid == Some("") ==> Import(Export(d)).directoryid.None?
  {
  }

  /** `import` accepts the id either as the document key `_id` or as `directoryid`. */
  lemma ImportAcceptsEitherId(e: Entity, id: string)
    requires id != ""
    ensures Import(e.(docId := Some(id), directoryid := None)) == Import(e.(docId := None, directoryid := Some(id)))
    ensures Import(e.(docId := Some(id))).directoryid == Some(id)
  {
  }

  /** Persisting a new Directory and reading it back loses nothing when its id is non-empty. */
  lemma NewDirectoryPersists(props: Entity, id: string, now: int, host: Host)
    requires id != ""
    requires props.directoryid != Some("")
    ensures Import(Export(NewDirectory(props, id, now, host))) == NewDirectory(props, id, now, host)
  {
  }

  /**
   * A document read by `import` and written back by `export` is unchanged
   * exactly when it carries its id only as a non-empty `_id`: a
   * `directoryid` field comes back as `_id`, and an empty `_id` as
   * `undefined`.
   */
  lemma DocumentRoundTrip(e: Entity)
    ensures Export(Import(e)) == e <==> e.directoryid.None? && e.docId != Some("")
  {
  }

  /**
   * The default physical path is built from the generated id, never from an
   * id the props supply: a Directory given its own id but no path lives
   * under the generated id's path.
   */
  lemma DefaultPathFollowsGeneratedId(props: Entity, id: string, now: int, host: Host)
    requires props.physicalpath.None?
    ensures NewDirectory(props, id, now, host).physicalpath == Some(PhysicalPathFor(host, id))
    ensures NewDirectory(props, id, now, host).physicalpath
            == NewDirectory(props.(docId := None, directoryid := None), id, now, host).physicalpath
  {
  }

  /** What `fs.mkdir` reported: success, or an error with its `code` (possibly `undefined`). */
  datatype MkdirResult = MkdirOk | MkdirFailed(code: Option<string>)

  /** What `make` hands its callback: no error, or the error of `fs.mkdir`. */
  datatype MakeResult = Made | MakeFailed(code: Option<string>)

  /**
   * `make`: success when `fs.mkdir` succeeds or reports that the directory
   * already exists (`EEXIST`), so making the same directory twice succeeds
   * both times; any other error is passed on.
   */
  function Make(mkdir: MkdirResult): (r: MakeResult)
    ensures r.Made? <==> mkdir.MkdirOk? || mkdir.code == Some("EEXIST")
    ensures r.MakeFailed? ==> mkdir.MkdirFailed? && r.code == mkdir.code
  {
    match mkdir
    case MkdirOk => Made
    case MkdirFailed(code) => if code == Some("EEXIST") then Made else MakeFailed(code)
  }
}
