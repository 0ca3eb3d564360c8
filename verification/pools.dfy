/** The two sides of a run, and the `zfs` commands that change them. */
module Pools {
  import opened Replication

  /** `owner` is the user property `org.zark:point-for`, which a rename keeps. */
  datatype Snap = Snap(guid: Guid, creation: nat, owner: Option<Disk>)

  datatype OriginDs = OriginDs(kind: Kind, snaps: map<RefName, Snap>, bookmarks: map<RefName, Guid>)

  /** A drive's copy: the guids it holds, oldest first, whether it keeps the
      state of a partial receive, and whether it was written since its newest. */
  datatype DriveDs = DriveDs(snaps: seq<Guid>, token: bool, written: bool)

  type Origin = map<Name, OriginDs>
  type Drive = map<Name, DriveDs>

  datatype World = World(origin: Origin, drives: map<Disk, Drive>)

  datatype Cmd =
    | SnapshotAll(point: RefName, owner: Disk, guids: map<Name, Guid>, now: nat)
    | MakeBookmark(rel: Name, snap: RefName, mark: RefName)
    | RenameSnap(rel: Name, from: RefName, to: RefName)
    | DestroySnap(rel: Name, snap: RefName)
    | DestroyBookmark(rel: Name, mark: RefName)
    | Receive(disk: Disk, rel: Name, got: seq<Guid>, token: bool)
    | AbortPartial(disk: Disk, rel: Name)
    | CreateContainer(disk: Disk, rel: Name)
    | Rearrange(disk: Disk, drive: Drive)  // the user's decisions, as one change of the drive

  function DriveOf(w: World, disk: Disk): Drive {
    if disk in w.drives then w.drives[disk] else map[]
  }

  predicate Holds(w: World, disk: Disk, rel: Name, g: Guid) {
    rel in DriveOf(w, disk) && g in DriveOf(w, disk)[rel].snaps
  }

  predicate IsNewest(d: DriveDs, g: Guid) {
    d.snaps != [] && d.snaps[|d.snaps| - 1] == g
  }

  predicate InSnaps(o: OriginDs, g: Guid) {
    exists n :: n in o.snaps && o.snaps[n].guid == g
  }

  predicate InBookmarks(o: OriginDs, g: Guid) {
    exists n :: n in o.bookmarks && o.bookmarks[n] == g
  }

  /** A guid origin can send from: a snapshot's, or off bpool a bookmark's. */
  predicate CanSendFrom(o: OriginDs, rel: Name, g: Guid) {
    InSnaps(o, g) || (!IsBpool(rel) && InBookmarks(o, g))
  }

  predicate FreshGuid(w: World, g: Guid) {
    && (forall disk, rel :: disk in w.drives && rel in w.drives[disk] ==> g !in w.drives[disk][rel].snaps)
    && (forall rel, n :: rel in w.origin && n in w.origin[rel].snaps ==> w.origin[rel].snaps[n].guid != g)
    && (forall rel, n :: rel in w.origin && n in w.origin[rel].bookmarks ==> w.origin[rel].bookmarks[n] != g)
  }

  /** When ZFS itself accepts the command. */
  predicate Accepted(w: World, c: Cmd) {
    match c
    case SnapshotAll(point, owner, guids, now) =>
      forall rel :: rel in guids ==>
        rel in w.origin && point !in w.origin[rel].snaps && FreshGuid(w, guids[rel])
    case MakeBookmark(rel, snap, mark) =>
      rel in w.origin && snap in w.origin[rel].snaps && mark !in w.origin[rel].bookmarks
    case RenameSnap(rel, from, to) =>
      rel in w.origin && from in w.origin[rel].snaps && to !in w.origin[rel].snaps
    case DestroySnap(rel, snap) => rel in w.origin && snap in w.origin[rel].snaps
    case DestroyBookmark(rel, mark) => rel in w.origin && mark in w.origin[rel].bookmarks
    case Receive(disk, rel, got, token) => true
    case AbortPartial(disk, rel) => rel in DriveOf(w, disk) && DriveOf(w, disk)[rel].token
    case CreateContainer(disk, rel) => rel !in DriveOf(w, disk)
    case Rearrange(disk, drive) =>
      forall rel, g :: rel in drive && g in drive[rel].snaps ==>
        exists was :: was in DriveOf(w, disk) && g in DriveOf(w, disk)[was].snaps
  }

  function SetOrigin(w: World, rel: Name, o: OriginDs): World {
    w.(origin := w.origin[rel := o])
  }

  function SetCopy(w: World, disk: Disk, rel: Name, d: DriveDs): World {
    w.(drives := w.drives[disk := DriveOf(w, disk)[rel := d]])
  }

  /** The copy a receive ends with: what was there, then what arrived. */
  function Received(d: Drive, rel: Name, got: seq<Guid>, token: bool): DriveDs {
    var before := if rel in d then d[rel].snaps else [];
    DriveDs(before + got, token, rel in d && d[rel].written && got == [])
  }

  function Apply(w: World, c: Cmd): World
    requires Accepted(w, c)
  {
    match c
    case SnapshotAll(point, owner, guids, now) =>
      w.(origin := map rel | rel in w.origin ::
        var o := w.origin[rel];
        if rel in guids then o.(snaps := o.snaps[point := Snap(guids[rel], now, Some(owner))]) else o)
    case MakeBookmark(rel, snap, mark) =>
      var o := w.origin[rel];
      SetOrigin(w, rel, o.(bookmarks := o.bookmarks[mark := o.snaps[snap].guid]))
    case RenameSnap(rel, from, to) =>
      var o := w.origin[rel];
      SetOrigin(w, rel, o.(snaps := (o.snaps - {from})[to := o.snaps[from]]))
    case DestroySnap(rel, snap) =>
      var o := w.origin[rel];
      SetOrigin(w, rel, o.(snaps := o.snaps - {snap}))
    case DestroyBookmark(rel, mark) =>
      var o := w.origin[rel];
      SetOrigin(w, rel, o.(bookmarks := o.bookmarks - {mark}))
    case Receive(disk, rel, got, token) =>
      SetCopy(w, disk, rel, Received(DriveOf(w, disk), rel, got, token))
    case AbortPartial(disk, rel) =>
      // A first receive has no snapshot yet: discarding its state takes the dataset.
      var d := DriveOf(w, disk);
      if d[rel].snaps == [] then w.(drives := w.drives[disk := d - {rel}])
      else SetCopy(w, disk, rel, d[rel].(token := false))
    case CreateContainer(disk, rel) => SetCopy(w, disk, rel, DriveDs([], false, false))
    case Rearrange(disk, drive) => w.(drives := w.drives[disk := drive])
  }
}
