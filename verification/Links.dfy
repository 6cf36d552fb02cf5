/** The share-link registry of src/anbar/links.py, kept both in kv entries and in the links table of
  * src/anbar/db.py.  A kv key link:<obj>:<exp> is the pair (obj, exp): object ids have no colon.  Each
  * operation reads the clock once. */
module Links {
  import opened Bytes

  datatype Link = Link(obj: string, exp: nat)

  const WEEK: nat := 7 * 86400

  datatype TableRow = TableRow(sig: Option<string>, slug: Option<string>, pw: bool, maxDl: Option<nat>, downloads: nat,
                               createdAt: nat, revoked: bool)

  datatype Meta = Meta(sig: Option<string>, slug: Option<string>, pw: bool, maxDl: Option<nat>, createdAt: nat,
          downloads: nat)

  /** The links table; the link:, rev: and slug: rows of kv; the objects with pw:, maxdl: or dlc: rows; and
    * the expiry of each shared album's row, 0 for never. */
  datatype Registry = Registry(table: map<Link, TableRow>, kv: map<Link, Meta>, rev: set<Link>,
                               slugs: map<string, string>, tags: set<string>, albums: map<string, nat>)

  datatype Op =
    | Register(obj: string, exp: nat, sig: Option<string>, slug: Option<string>, pw: bool, maxDl: nat)
    | Share(album: string, albumExp: nat)
    | Bump(obj: string)
    | Revoke(obj: string, exp: nat)
    | RevokeAll
    | Purge
    | PurgeObject(obj: string)

  /** Python's "x or None". */
  function OrNone(s: Option<string>): Option<string> {
    if s == Some("") then None else s
  }

  // ----- queries -----

  predicate IsRevoked(s: Registry, l: Link) {
    if l in s.table then s.table[l].revoked else l in s.rev
  }

  /** The album page is shown. */
  predicate AlbumOpens(s: Registry, album: string, now: nat) {
    album in s.albums && (s.albums[album] == 0 || now < s.albums[album])
  }

  /** A full download of obj counts against this kv entry. */
  predicate Counts(table: map<Link, TableRow>, rev: set<Link>, obj: string, l: Link, now: nat) {
    l.obj == obj && l.exp > now && !(if l in table then table[l].revoked else l in rev)
  }

  /** link_bump_downloads. */
  function BumpedTable(table: map<Link, TableRow>, obj: string, now: nat): map<Link, TableRow> {
    map l | l in table :: if l.obj == obj && !table[l].revoked && l.exp > now then Bumped(table[l]) else table[l]
  }

  /** link_revoke_all, and the rows it counts. */
  function RevokedTable(table: map<Link, TableRow>): map<Link, TableRow> {
    map l | l in table :: table[l].(revoked := true)
  }

  function Unrevoked(table: map<Link, TableRow>): set<Link> {
    set l | l in table && !table[l].revoked
  }

  function Recounted(meta: Meta): Meta {
    meta.(downloads := meta.downloads + 1)
  }

  /** The table knows an unrevoked link that has not expired. */
  ghost predicate HasLive(table: map<Link, TableRow>, obj: string, now: nat) {
    exists l :: l in table && l.obj == obj && !table[l].revoked && l.exp > now
  }

  ghost predicate HasEntry(kv: map<Link, Meta>, obj: string) {
    exists l :: l in kv && l.obj == obj
  }

  // ----- operations -----

  function Dropped(s: Registry, objs: set<string>): Registry {
    s.(tags := s.tags - objs, slugs := map name | name in s.slugs && s.slugs[name] !in objs :: s.slugs[name])
  }

  /** _cleanup_tags: an object without links loses its password, cap and pretty names. */
  ghost function Cleaned(s: Registry, obj: string, now: nat): Registry {
    if HasLive(s.table, obj, now) || HasEntry(s.kv, obj) then s else Dropped(s, {obj})
  }

  function Bumped(row: TableRow): TableRow {
    row.(downloads := row.downloads + 1)
  }

  /** The links purge_expired drops from the table, and the objects it leaves without links. */
  function Stale(table: map<Link, TableRow>, now: nat): set<Link> {
    set l | l in table && (if table[l].revoked then l.exp + WEEK < now else l.exp <= now)
  }

  function Expired(kv: map<Link, Meta>, now: nat): set<Link> {
    set l | l in kv && l.exp <= now
  }

  function StaleTombs(rev: set<Link>, now: nat): set<Link> {
    set l | l in rev && l.exp + WEEK < now
  }

  function Objects(links: set<Link>): set<string> {
    set l | l in links :: l.obj
  }

  ghost function Bare(s: Registry, objs: set<string>, now: nat): set<string> {
    set obj | obj in objs && !HasLive(s.table, obj, now) && !HasEntry(s.kv, obj)
  }

  ghost function Apply(s: Registry, op: Op, now: nat): Registry {
    match op
    case Register(obj, exp, sig, slug, pw, maxDl) =>
      var cap := if maxDl == 0 then None else Some(maxDl);
      s.(table := s.table[Link(obj, exp) := TableRow(sig, slug, pw, cap, 0, now, false)],
         kv := s.kv[Link(obj, exp) := Meta(OrNone(sig), OrNone(slug), pw, cap, now, 0)])
    case Share(album, exp) => s.(albums := s.albums[album := exp])
    case Bump(obj) =>
      var t := s.(table := BumpedTable(s.table, obj, now));
      t.(kv := map l | l in s.kv :: if Counts(t.table, t.rev, obj, l, now) then Recounted(s.kv[l]) else s.kv[l])
    case Revoke(obj, exp) =>
      var l := Link(obj, exp);
      if l in s.kv || (l in s.table && !s.table[l].revoked) then
        var table := if l in s.table then s.table[l := s.table[l].(revoked := true)] else s.table;
        Cleaned(s.(table := table, kv := s.kv - {l}, rev := s.rev + {l}), obj, now)
      else s
    case RevokeAll =>
      Dropped(s.(table := RevokedTable(s.table), kv := map[], rev := s.rev + s.kv.Keys, albums := map[]),
          Objects(s.kv.Keys))
    case Purge =>
      var t := s.(table := s.table - Stale(s.table, now), kv := s.kv - Expired(s.kv, now),
                 rev := s.rev - StaleTombs(s.rev, now));
      Dropped(t, Bare(t, Objects(Expired(s.kv, now)), now))
    case PurgeObject(obj) =>
      Dropped(s.(kv := map l | l in s.kv && l.obj != obj :: s.kv[l], rev := set l | l in s.rev && l.obj != obj), {obj})
  }

  // ----- the two stores agree -----

  predicate Same(row: TableRow, meta: Meta) {
    row.sig == meta.sig && row.slug == meta.slug && row.pw == meta.pw && row.maxDl == meta.maxDl
    && row.createdAt == meta.createdAt && row.downloads == meta.downloads
  }

  /** A kv entry exists exactly for the unrevoked rows of the table, with the same fields and count. */
  ghost predicate Agree(s: Registry) {
    && (forall l :: l in s.kv <==> l in s.table && !s.table[l].revoked)
    && (forall l :: l in s.kv ==> Same(s.table[l], s.kv[l]))
  }

  /** No kv entry without an unrevoked row: this much even deleting objects keeps. */
  ghost predicate Backed(s: Registry) {
    forall l :: l in s.kv ==> l in s.table && !s.table[l].revoked
  }

  const EMPTY: Registry := Registry(map[], map[], {}, map[], {}, map[])

  /** Every operation of this registry keeps the agreement, given links whose signature and name, if any,
    * are not empty. */
  lemma StepAgree(s: Registry, op: Op, now: nat)
    requires Agree(s) && !op.PurgeObject?
    requires op.Register? ==> op.sig != Some("") && op.slug != Some("")
    ensures Agree(Apply(s, op, now))
  {
  }

  /** The empty signature or name is exactly what kv and table store differently. */
  lemma RegisterAgrees(s: Registry, op: Op, now: nat)
    requires Agree(s) && op.Register?
    ensures Agree(Apply(s, op, now)) <==> op.sig != Some("") && op.slug != Some("")
  {
    var t := Apply(s, op, now);
    var l := Link(op.obj, op.exp);
    assert l in t.kv;
    assert Same(t.table[l], t.kv[l]) <==> op.sig != Some("") && op.slug != Some("");
  }

  /** Destroying an object drops its kv entries but not its rows: the stores then agree exactly if it had
    * no unrevoked link. */
  lemma PurgeObjectAgrees(s: Registry, obj: string, now: nat)
    requires Agree(s)
    ensures Agree(Apply(s, PurgeObject(obj), now)) <==> forall l :: l in s.table && l.obj == obj ==> s.table[l].revoked
  {
    var t := Apply(s, PurgeObject(obj), now);
    if l :| l in s.table && l.obj == obj && !s.table[l].revoked {
      assert l !in t.kv && l in t.table;
    }
  }

  /** An instance: an object with a live link is destroyed.  The row stays live, the kv entry is gone. */
  lemma PurgeLeavesLiveRow()
    ensures var s := Apply(EMPTY, Register("o", 10, None, None, false, 0), 1);
            Agree(s) && !Agree(Apply(s, PurgeObject("o"), 2)) && HasLive(Apply(s, PurgeObject("o"), 2).table, "o", 2)
  {
    var s := Apply(EMPTY, Register("o", 10, None, None, false, 0), 1);
    StepAgree(EMPTY, Register("o", 10, None, None, false, 0), 1);
    PurgeObjectAgrees(s, "o", 2);
    assert Link("o", 10) in s.table && Link("o", 10) in Apply(s, PurgeObject("o"), 2).table;
  }

  lemma StepBacked(s: Registry, op: Op, now: nat)
    requires Backed(s)
    ensures Backed(Apply(s, op, now))
  {
  }

  function Times(steps: seq<(Op, nat)>, from: nat): (last: nat) {
    if steps == [] then from else steps[|steps| - 1].1
  }

  /** The clock never goes back. */
  predicate Ordered(steps: seq<(Op, nat)>, from: nat) {
    steps == [] || (from <= steps[0].1 && Ordered(steps[1..], steps[0].1))
  }

  ghost function Run(s: Registry, steps: seq<(Op, nat)>): Registry
    decreases |steps|
  {
    if steps == [] then s else Run(Apply(s, steps[0].0, steps[0].1), steps[1..])
  }

  /** Over every history the stores agree. */
  lemma {:induction false} RunAgree(s: Registry, steps: seq<(Op, nat)>)
    requires Agree(s)
    requires forall i :: 0 <= i < |steps| ==> !steps[i].0.PurgeObject?
    requires forall i :: 0 <= i < |steps| && steps[i].0.Register? ==>
      steps[i].0.sig != Some("") && steps[i].0.slug != Some("")
    ensures Agree(Run(s, steps))
    decreases |steps|
  {
    if steps != [] {
      StepAgree(s, steps[0].0, steps[0].1);
      RunAgree(Apply(s, steps[0].0, steps[0].1), steps[1..]);
    }
  }

  // ----- revocation -----

  /** revoke succeeds exactly for a registered, unrevoked link, and then that link is revoked. */
  lemma RevokeKills(s: Registry, l: Link, now: nat)
    requires Backed(s)
    ensures var t := Apply(s, Revoke(l.obj, l.exp), now);
            && (t != s <==> l in s.table && !s.table[l].revoked)
            && (t != s ==> l in t.table && t.table[l].revoked && IsRevoked(t, l))
            && forall other :: other != l ==> (IsRevoked(t, other) <==> IsRevoked(s, other))
  {
    var t := Apply(s, Revoke(l.obj, l.exp), now);
    if l in s.table && !s.table[l].revoked {
      assert t.table[l].revoked;
    }
  }

  /** Revoking everything leaves no link alive that either store knew, and no album open. */
  lemma RevokeAllKills(s: Registry, now: nat)
    ensures var t := Apply(s, RevokeAll, now);
            && (forall l :: l in s.table || l in s.kv ==> IsRevoked(t, l))
            && t.kv == map[] && (forall album, later :: !AlbumOpens(t, album, later))
  {
    hide Dropped, Objects;
    var r := s.(table := RevokedTable(s.table), kv := map[], rev := s.rev + s.kv.Keys, albums := map[]);
    DroppedKeeps(r, Objects(s.kv.Keys));
  }

  lemma DroppedKeeps(s: Registry, objs: set<string>)
    ensures var t := Dropped(s, objs); t.table == s.table && t.kv == s.kv && t.rev == s.rev && t.albums == s.albums
  {
  }

  /** The row is there and revoked, or the link is a week past its expiry. */
  predicate Dead(s: Registry, l: Link, clock: nat) {
    (l in s.table && s.table[l].revoked) || l.exp + WEEK < clock
  }

  lemma StepDead(s: Registry, l: Link, clock: nat, op: Op, now: nat)
    requires Dead(s, l, clock) && clock <= now
    requires op.Register? ==> Link(op.obj, op.exp) != l
    ensures Dead(Apply(s, op, now), l, now)
  {
  }

  /** Once revoked, a link stays revoked or expired in every later history that does not register the
    * same object and expiry again, deletion of its object included. */
  lemma {:induction false} RevokedForGood(s: Registry, l: Link, clock: nat, steps: seq<(Op, nat)>, now: nat)
    requires Dead(s, l, clock) && Ordered(steps, clock) && Times(steps, clock) <= now
    requires forall i :: 0 <= i < |steps| && steps[i].0.Register? ==> Link(steps[i].0.obj, steps[i].0.exp) != l
    ensures IsRevoked(Run(s, steps), l) || l.exp <= now
    decreases |steps|
  {
    if steps != [] {
      StepDead(s, l, clock, steps[0].0, steps[0].1);
      assert steps[1..] != [] ==> steps[1..][|steps| - 2] == steps[|steps| - 1];
      RevokedForGood(Apply(s, steps[0].0, steps[0].1), l, steps[0].1, steps[1..], now);
    }
  }

  /** When the stores agree, a successful revoke takes the object's password, cap and pretty names away
    * exactly if it was the object's last unrevoked link; nobody else's are touched. */
  lemma LastLinkTakesTags(s: Registry, l: Link, now: nat)
    requires Agree(s) && l in s.table && !s.table[l].revoked
    ensures var t := Apply(s, Revoke(l.obj, l.exp), now);
            var last := forall other :: other in s.table && other.obj == l.obj && !s.table[other].revoked ==>
              other == l;
            && t.tags == (if last then s.tags - {l.obj} else s.tags)
            && forall name :: name in t.slugs <==> name in s.slugs && (last ==> s.slugs[name] != l.obj)
  {
    var table := s.table[l := s.table[l].(revoked := true)];
    var last := forall other :: other in s.table && other.obj == l.obj && !s.table[other].revoked ==> other == l;
    if !last {
      var other :| other in s.table && other.obj == l.obj && !s.table[other].revoked && other != l;
      assert other in s.kv - {l};
      assert HasEntry(s.kv - {l}, l.obj);
    }
  }

  // ----- what a history does to one link -----

  /** The full downloads of obj before the link's expiry. */
  function Downloads(steps: seq<(Op, nat)>, l: Link): nat {
    if steps == [] then 0
    else Downloads(steps[1..], l) + if steps[0].0 == Bump(l.obj) && steps[0].1 < l.exp then 1 else 0
  }

  /** What replaces a link, revokes it, or destroys it with its object; expiry aside. */
  predicate Touches(op: Op, l: Link) {
    match op
    case Register(obj, exp, _, _, _, _) => obj == l.obj && exp == l.exp
    case Revoke(obj, exp) => obj == l.obj && exp == l.exp
    case RevokeAll => true
    case PurgeObject(obj) => obj == l.obj
    case _ => false
  }

  /** A link that both stores have stays as it was registered until it is touched or purged after its
    * expiry; both stores count every full download before the expiry, and nothing else. */
  lemma {:induction false} LinkStays(s: Registry, l: Link, steps: seq<(Op, nat)>)
    requires l in s.table && !s.table[l].revoked && l in s.kv
    requires forall i :: 0 <= i < |steps| ==>
      !Touches(steps[i].0, l) && (steps[i].0 == Purge ==> steps[i].1 < l.exp)
    ensures var t, n := Run(s, steps), Downloads(steps, l);
            && l in t.table && l in t.kv && !IsRevoked(t, l)
            && t.table[l] == s.table[l].(downloads := s.table[l].downloads + n)
            && t.kv[l] == s.kv[l].(downloads := s.kv[l].downloads + n)
    decreases |steps|
  {
    if steps != [] {
      StepStays(s, l, steps[0].0, steps[0].1);
      LinkStays(Apply(s, steps[0].0, steps[0].1), l, steps[1..]);
    }
  }

  lemma StepStays(s: Registry, l: Link, op: Op, now: nat)
    requires l in s.table && !s.table[l].revoked && l in s.kv
    requires !Touches(op, l) && (op == Purge ==> now < l.exp)
    ensures var t, n := Apply(s, op, now), if op == Bump(l.obj) && now < l.exp then 1 else 0;
            && l in t.table && l in t.kv
            && t.table[l] == s.table[l].(downloads := s.table[l].downloads + n)
            && t.kv[l] == s.kv[l].(downloads := s.kv[l].downloads + n)
  {
    hide HasLive, HasEntry, Bare, Objects;
  }

  /** No link is revoked before its expiry unless somebody revokes it, or everything. */
  lemma {:induction false} RevokedOnlyByRevoking(s: Registry, l: Link, steps: seq<(Op, nat)>)
    requires !IsRevoked(s, l)
    requires forall i :: 0 <= i < |steps| ==>
      && steps[i].0 != Revoke(l.obj, l.exp) && steps[i].0 != RevokeAll && (steps[i].0 == Purge ==> steps[i].1 < l.exp)
    ensures !IsRevoked(Run(s, steps), l)
    decreases |steps|
  {
    if steps != [] {
      StepUnrevoked(s, l, steps[0].0, steps[0].1);
      RevokedOnlyByRevoking(Apply(s, steps[0].0, steps[0].1), l, steps[1..]);
    }
  }

  lemma StepUnrevoked(s: Registry, l: Link, op: Op, now: nat)
    requires !IsRevoked(s, l)
    requires op != Revoke(l.obj, l.exp) && op != RevokeAll && (op == Purge ==> now < l.exp)
    ensures !IsRevoked(Apply(s, op, now), l)
  {
    hide HasLive, HasEntry, Bare, Objects;
  }

  /** A shared album opens before its expiry, or always if that is 0, and then no more; until it is shared
    * again or everything is revoked. */
  lemma {:induction false} AlbumOpensUntil(s: Registry, album: string, exp: nat, steps: seq<(Op, nat)>, now: nat)
    requires album in s.albums && s.albums[album] == exp
    requires forall i :: 0 <= i < |steps| ==>
      steps[i].0 != RevokeAll && !(steps[i].0.Share? && steps[i].0.album == album)
    ensures AlbumOpens(Run(s, steps), album, now) <==> exp == 0 || now < exp
    decreases |steps|
  {
    if steps != [] {
      StepKeepsAlbum(s, steps[0].0, steps[0].1, album);
      AlbumOpensUntil(Apply(s, steps[0].0, steps[0].1), album, exp, steps[1..], now);
    }
  }

  lemma StepKeepsAlbum(s: Registry, op: Op, now: nat, album: string)
    requires album in s.albums && op != RevokeAll && !(op.Share? && op.album == album)
    ensures album in Apply(s, op, now).albums && Apply(s, op, now).albums[album] == s.albums[album]
  {
    hide HasLive, HasEntry, Bare, Objects;
  }

  /** Whether an object's password, cap, counter and pretty names go. */
  ghost predicate Loses(before: Registry, after: Registry, obj: string, loses: bool) {
    && (obj in after.tags <==> obj in before.tags && !loses)
    && forall name :: name in before.slugs && before.slugs[name] == obj ==>
         (name in after.slugs <==> !loses) && (name in after.slugs ==> after.slugs[name] == obj)
  }

  lemma DroppedLoses(s: Registry, objs: set<string>, obj: string)
    ensures Loses(s, Dropped(s, objs), obj, obj in objs)
  {
  }

  /** The object has no other entry and no other live row. */
  ghost predicate OnlyLink(s: Registry, l: Link, now: nat) {
    forall other: Link :: other.obj == l.obj && other != l ==>
      other !in s.kv && !(other in s.table && !s.table[other].revoked && other.exp > now)
  }

  lemma RevokeLoses(s: Registry, l: Link, now: nat)
    requires l in s.kv || (l in s.table && !s.table[l].revoked)
    ensures Loses(s, Apply(s, Revoke(l.obj, l.exp), now), l.obj, OnlyLink(s, l, now))
    ensures forall other :: other != l.obj ==> Loses(s, Apply(s, Revoke(l.obj, l.exp), now), other, false)
  {
    var table := if l in s.table then s.table[l := s.table[l].(revoked := true)] else s.table;
    var t := s.(table := table, kv := s.kv - {l}, rev := s.rev + {l});
    assert OnlyLink(s, l, now) <==> !HasLive(t.table, l.obj, now) && !HasEntry(t.kv, l.obj);
    DroppedLoses(t, {l.obj}, l.obj);
    forall other | other != l.obj
      ensures Loses(s, Apply(s, Revoke(l.obj, l.exp), now), other, false)
    {
      DroppedLoses(t, {l.obj}, other);
    }
  }

  lemma RevokeAllLoses(s: Registry, now: nat, obj: string)
    ensures Loses(s, Apply(s, RevokeAll, now), obj, HasEntry(s.kv, obj))
  {
    DroppedLoses(s, Objects(s.kv.Keys), obj);
    assert obj in Objects(s.kv.Keys) <==> exists l :: l in s.kv.Keys && l.obj == obj;
  }

  /** Every row is revoked, every entry is a tombstone, no album is left, and the objects that had an entry
    * lose their tags. */
  ghost predicate AllRevoked(before: Registry, after: Registry) {
    && after.table == (map l | l in before.table :: before.table[l].(revoked := true))
    && after.kv == map[] && after.albums == map[] && after.rev == before.rev + before.kv.Keys
    && forall obj :: Loses(before, after, obj, HasEntry(before.kv, obj))
  }

  lemma RevokeAllRevokes(s: Registry, now: nat)
    ensures AllRevoked(s, Apply(s, RevokeAll, now))
  {
    hide Loses, HasEntry;
    forall obj
      ensures Loses(s, Apply(s, RevokeAll, now), obj, HasEntry(s.kv, obj))
    {
      RevokeAllLoses(s, now, obj);
    }
  }

  /** Unrevoked rows and entries go at their expiry, revoked rows and tombstones a week later; the objects
    * left bare lose their tags. */
  ghost predicate AllPurged(before: Registry, after: Registry, now: nat) {
    && after.albums == before.albums
    && (forall l :: l in after.table <==>
          && l in before.table
          && if before.table[l].revoked then l.exp + 604800 >= now else l.exp > now)
    && (forall l :: l in after.table ==> after.table[l] == before.table[l])
    && (forall l :: l in after.kv <==> l in before.kv && l.exp > now)
    && (forall l :: l in after.kv ==> after.kv[l] == before.kv[l])
    && (forall l :: l in after.rev <==> l in before.rev && l.exp + 604800 >= now)
    && forall obj :: Loses(before, after, obj, Bared(before, obj, now))
  }

  lemma PurgedStores(s: Registry, now: nat)
    ensures var t := Apply(s, Purge, now);
            && t.table == s.table - Stale(s.table, now) && t.kv == s.kv - Expired(s.kv, now)
            && t.rev == s.rev - StaleTombs(s.rev, now) && t.albums == s.albums
  {
    hide Bare, Objects, Stale, Expired, StaleTombs;
  }

  lemma PurgedCounts(s: Registry, now: nat)
    ensures var t := Apply(s, Purge, now);
            && |Stale(s.table, now)| == |s.table| - |t.table| && |StaleTombs(s.rev, now)| == |s.rev| - |t.rev|
            && |Expired(s.kv, now)| == |s.kv| - |t.kv|
  {
    hide Apply;
    PurgedStores(s, now);
    Fall(s.table, Stale(s.table, now));
    Fall(s.kv, Expired(s.kv, now));
    assert StaleTombs(s.rev, now) <= s.rev;
  }

  lemma PurgePurges(s: Registry, now: nat)
    ensures AllPurged(s, Apply(s, Purge, now), now)
  {
    hide Loses, Bared, Apply;
    PurgedStores(s, now);
    forall obj
      ensures Loses(s, Apply(s, Purge, now), obj, Bared(s, obj, now))
    {
      PurgeLoses(s, now, obj);
    }
  }

  lemma Fall<K, V>(m: map<K, V>, gone: set<K>)
    requires gone <= m.Keys
    ensures |m - gone| == |m| - |gone|
  {
    assert (m - gone).Keys == m.Keys - gone;
    assert |m - gone| == |(m - gone).Keys| && |m| == |m.Keys|;
  }

  /** The unrevoked links of obj that have not expired count one download more in both stores. */
  ghost predicate AllBumped(before: Registry, after: Registry, obj: string, now: nat) {
    && after.table.Keys == before.table.Keys && after.kv.Keys == before.kv.Keys
    && (forall l :: l in before.table ==>
          var counted := l.obj == obj && l.exp > now && !before.table[l].revoked;
          after.table[l] == before.table[l].(downloads := before.table[l].downloads + if counted then 1 else 0))
    && (forall l :: l in before.kv ==>
          var revoked := if l in before.table then before.table[l].revoked else l in before.rev;
          var counted := l.obj == obj && l.exp > now && !revoked;
          after.kv[l] == before.kv[l].(downloads := before.kv[l].downloads + if counted then 1 else 0))
  }

  lemma BumpBumps(s: Registry, obj: string, now: nat)
    ensures AllBumped(s, Apply(s, Bump(obj), now), obj, now)
  {
  }

  lemma PurgeObjectLoses(s: Registry, obj: string, now: nat)
    ensures Loses(s, Apply(s, PurgeObject(obj), now), obj, true)
    ensures forall other :: other != obj ==> Loses(s, Apply(s, PurgeObject(obj), now), other, false)
  {
    DroppedLoses(s, {obj}, obj);
    forall other | other != obj
      ensures Loses(s, Apply(s, PurgeObject(obj), now), other, false)
    {
      DroppedLoses(s, {obj}, other);
    }
  }

  /** An object loses its tags in a purge when an entry of it expired and it has no link left: no other
    * entry, and no unrevoked row. */
  ghost predicate Bared(s: Registry, obj: string, now: nat) {
    && (exists l :: l in s.kv && l.obj == obj && l.exp <= now)
    && (forall l :: l in s.kv && l.obj == obj ==> l.exp <= now)
    && (forall l :: l in s.table && l.obj == obj && !s.table[l].revoked ==> l.exp <= now)
  }

  lemma PurgeLoses(s: Registry, now: nat, obj: string)
    ensures Loses(s, Apply(s, Purge, now), obj, Bared(s, obj, now))
  {
    var t := s.(table := s.table - Stale(s.table, now), kv := s.kv - Expired(s.kv, now),
                rev := s.rev - StaleTombs(s.rev, now));
    DroppedLoses(t, Bare(t, Objects(Expired(s.kv, now)), now), obj);
    assert obj in Objects(Expired(s.kv, now)) <==> exists l :: l in s.kv && l.obj == obj && l.exp <= now;
    assert HasEntry(t.kv, obj) <==> exists l :: l in s.kv && l.obj == obj && l.exp > now;
    assert HasLive(t.table, obj, now) <==>
      exists l :: l in s.table && l.obj == obj && !s.table[l].revoked && l.exp > now;
  }

  // ----- the registry object -----

  lemma DroppedTwice(s: Registry, a: set<string>, b: set<string>)
    ensures Dropped(Dropped(s, a), b) == Dropped(s, a + b)
  {
  }

  lemma DroppedNone(s: Registry)
    ensures Dropped(s, {}) == s
  {
  }

  lemma BumpedEverywhere(s: Registry, obj: string, now: nat, table: map<Link, TableRow>, kv: map<Link, Meta>)
    requires table == BumpedTable(s.table, obj, now)
    requires kv.Keys == s.kv.Keys
    requires forall l :: l in kv ==> kv[l] == if Counts(table, s.rev, obj, l, now) then Recounted(s.kv[l]) else s.kv[l]
    ensures Apply(s, Bump(obj), now) == s.(table := table, kv := kv)
  {
    hide Counts, Recounted, BumpedTable;
    assert Apply(s, Bump(obj), now).kv == kv;
  }

  /** Dropping an expired entry bares its object or nothing. */
  lemma BareStep(before: Registry, after: Registry, l: Link, seen: set<Link>, now: nat)
    requires l in before.kv && after.kv == before.kv - {l} && after.table == before.table
    ensures Bare(after, Objects(seen + {l}), now) ==
      Bare(before, Objects(seen), now) + if HasLive(before.table, l.obj, now) || HasEntry(after.kv, l.obj)
                                          then {} else {l.obj}
  {
    assert Objects(seen + {l}) == Objects(seen) + {l.obj};
    assert HasEntry(before.kv, l.obj);
    forall obj | obj != l.obj
      ensures HasEntry(after.kv, obj) <==> HasEntry(before.kv, obj)
    {
      if HasEntry(before.kv, obj) {
        var e :| e in before.kv && e.obj == obj;
        assert e in after.kv;
      }
    }
  }

  class LinkRegistry {
    var table: map<Link, TableRow>
    var kv: map<Link, Meta>
    var rev: set<Link>
    var slugs: map<string, string>
    var tags: set<string>
    var albums: map<string, nat>

    function Now(): Registry
      reads this
    {
      Registry(table, kv, rev, slugs, tags, albums)
    }

    constructor ()
      ensures Now() == EMPTY
    {
      table, kv, rev, slugs, tags, albums := map[], map[], {}, map[], {}, map[];
    }

    /** link_has_live. */
    method LinkHasLive(obj: string, now: nat) returns (r: bool)
      ensures r <==> HasLive(table, obj, now)
    {
      r := exists l :: l in table && l.obj == obj && !table[l].revoked && l.exp > now;
    }

    method RegisterLink(obj: string, exp: nat, sig: Option<string>, slug: Option<string>, pw: bool, maxDl: nat,
            now: nat)
      modifies this`table, this`kv
      ensures Now() == Apply(old(Now()), Register(obj, exp, sig, slug, pw, maxDl), now)
      ensures var l, cap := Link(obj, exp), if maxDl == 0 then None else Some(maxDl);
              && table == old(table)[l := TableRow(sig, slug, pw, cap, 0, now, false)]
              && kv == old(kv)[l := Meta(if sig == Some("") then None else sig, if slug == Some("") then None else slug,
                                         pw, cap, now, 0)]
    {
      var cap := if maxDl == 0 then None else Some(maxDl);
      table := table[Link(obj, exp) := TableRow(sig, slug, pw, cap, 0, now, false)];
      kv := kv[Link(obj, exp) := Meta(OrNone(sig), OrNone(slug), pw, cap, now, 0)];
    }

    /** The kv part of album_create. */
    method ShareAlbum(album: string, exp: nat, now: nat)
      modifies this`albums
      ensures Now() == Apply(old(Now()), Share(album, exp), now)
      ensures albums == old(albums)[album := exp]
    {
      albums := albums[album := exp];
    }

    /** bump_link_downloads: one statement on the table, then entry by entry in kv. */
    method BumpLinkDownloads(obj: string, now: nat)
      modifies this`table, this`kv
      ensures Now() == Apply(old(Now()), Bump(obj), now)
      ensures AllBumped(old(Now()), Now(), obj, now)
    {
      hide Counts, Recounted, BumpedTable, Apply, AllBumped;
      ghost var s := Now();
      table := BumpedTable(table, obj, now);
      ghost var before := kv;
      var left := kv.Keys;
      while left != {}
        invariant left <= kv.Keys == before.Keys && Now() == s.(table := BumpedTable(s.table, obj, now), kv := kv)
        invariant forall l :: l in kv ==>
          kv[l] == if l !in left && Counts(table, rev, obj, l, now) then Recounted(before[l]) else before[l]
        decreases left
      {
        var l :| l in left;
        left := left - {l};
        if Counts(table, rev, obj, l, now) {
          kv := kv[l := Recounted(kv[l])];
        }
      }
      BumpedEverywhere(s, obj, now, table, kv);
      BumpBumps(s, obj, now);
    }

    /** revoke: false when neither store knows an unrevoked link. */
    method RevokeLink(obj: string, exp: nat, now: nat) returns (ok: bool)
      modifies this
      ensures Now() == Apply(old(Now()), Revoke(obj, exp), now)
      ensures ok <==> Link(obj, exp) in old(kv) || (Link(obj, exp) in old(table) && !old(table)[Link(obj, exp)].revoked)
      ensures !ok ==> Now() == old(Now())
      ensures ok ==>
        var l := Link(obj, exp);
        && kv == old(kv) - {l} && rev == old(rev) + {l} && albums == old(albums)
        && table == (if l in old(table) then old(table)[l := old(table)[l].(revoked := true)] else old(table))
        && Loses(old(Now()), Now(), obj, OnlyLink(old(Now()), l, now))
        && forall other :: other != obj ==> Loses(old(Now()), Now(), other, false)
    {
      var l := Link(obj, exp);
      var hadTable := l in table && !table[l].revoked;
      if l !in kv && !hadTable {
        return false;
      }
      hide Loses, OnlyLink;
      RevokeLoses(Now(), l, now);
      if hadTable {
        table := table[l := table[l].(revoked := true)];
      } else if l in table {
        assert table[l := table[l].(revoked := true)] == table;
      }
      kv := kv - {l};
      rev := rev + {l};
      CleanupTags(obj, now);
      ok := true;
    }

    method CleanupTags(obj: string, now: nat)
      modifies this`tags, this`slugs
      ensures Now() == Cleaned(old(Now()), obj, now)
    {
      var live := LinkHasLive(obj, now);
      if live || exists l :: l in kv && l.obj == obj {
        return;
      }
      assert !HasEntry(kv, obj);
      tags := tags - {obj};
      slugs := map name | name in slugs && slugs[name] != obj :: slugs[name];
    }

    /** One kv entry goes, and with an object's last entry its tags. */
    method DropEntry(l: Link, now: nat, ghost base: Registry, ghost seen: set<Link>)
      requires Swept(base, Now(), seen, now) && l in kv
      modifies this`kv, this`tags, this`slugs
      ensures Swept(base, Now(), seen + {l}, now) && kv == old(kv) - {l}
    {
      hide Bare, Dropped, Objects;
      ghost var before := Now();
      kv := kv - {l};
      ghost var mid := Now();
      BareStep(before, mid, l, seen, now);
      CleanupTags(l.obj, now);
      SweepStep(base, before, mid, Now(), l, seen, now);
    }

    /** revoke_all: every row at once, then entry by entry in kv, and every album; the number of rows
      * revoked and albums removed. */
    method RevokeAllLinks(now: nat) returns (count: nat)
      modifies this
      ensures Now() == Apply(old(Now()), RevokeAll, now)
      ensures count == |set l | l in old(table) && !old(table)[l].revoked| + |old(albums.Keys)|
      ensures AllRevoked(old(Now()), Now())
    {
      hide Dropped, Bare, Objects, Swept, Apply, RevokedTable, AllRevoked;
      ghost var s := Now();
      count := |Unrevoked(table)|;
      table := RevokedTable(table);
      var removed := RemoveAlbums();
      count := count + removed;
      ghost var base := Now();
      ghost var seen := DropEveryEntry(now);
      RevokedAll(s, base, Now(), seen, now);
      RevokeAllRevokes(s, now);
    }

    /** Each kv entry becomes a tombstone. */
    method DropEveryEntry(now: nat) returns (ghost seen: set<Link>)
      modifies this`kv, this`rev, this`tags, this`slugs
      ensures Swept(old(Now()), Now(), seen, now) && kv.Keys == {} && rev == old(rev) + seen
    {
      hide Bare, Dropped, Objects, Swept;
      ghost var base := Now();
      SweepStart(base, now);
      seen := {};
      var left := kv.Keys;
      while left != {}
        invariant left == kv.Keys && rev == base.rev + seen && Swept(base, Now(), seen, now)
        decreases left
      {
        var l :| l in left;
        DropEntry(l, now, base, seen);
        seen := seen + {l};
        SweptKeepsRev(base, Now(), seen, now, rev + {l});
        rev := rev + {l};
        left := left - {l};
      }
    }

    method RemoveAlbums() returns (count: nat)
      modifies this`albums
      ensures albums == map[] && count == |old(albums.Keys)|
    {
      count := 0;
      while albums != map[]
        invariant count + |albums.Keys| == |old(albums.Keys)|
        decreases albums.Keys
      {
        var album :| album in albums;
        albums := albums - {album};
        count := count + 1;
      }
    }

    /** purge_expired: expired rows and entries, and tombstones a week past expiry; how many there were.
      * Tombstones and entries do not meet, so they are taken one kind after the other. */
    method PurgeExpired(now: nat) returns (removed: nat)
      modifies this
      ensures Now() == Apply(old(Now()), Purge, now)
      ensures AllPurged(old(Now()), Now(), now)
      ensures removed == |old(table)| - |table| + |old(rev)| - |rev| + |old(kv)| - |kv|
    {
      hide Dropped, Bare, Objects, Swept, Stale, Expired, StaleTombs, Apply, AllPurged;
      ghost var s := Now();
      removed := |Stale(table, now)|;
      table := table - Stale(table, now);
      var tombs := DropStaleTombs(now);
      ghost var base := Now();
      var entries := DropExpiredEntries(now);
      removed := removed + tombs + entries;
      Purged(s, base, Now(), now);
      PurgePurges(s, now);
      PurgedCounts(s, now);
    }

    method DropStaleTombs(now: nat) returns (n: nat)
      modifies this`rev
      ensures rev == old(rev) - StaleTombs(old(rev), now) && n == |StaleTombs(old(rev), now)|
    {
      hide Culling;
      n := 0;
      var left := rev;
      ghost var before, stale, seen := rev, StaleTombs(rev, now), {};
      CullingStarts(left, stale);
      while left != {}
        invariant left <= before && Culling(stale, left, seen) && rev == before - seen && n == |seen|
        decreases left
      {
        var l :| l in left;
        CullingStep(stale, left, seen, l);
        if l.exp + WEEK < now {
          rev := rev - {l};
          seen := seen + {l};
          n := n + 1;
        }
        left := left - {l};
      }
      CullingEnds(stale, seen);
    }

    method DropExpiredEntries(now: nat) returns (n: nat)
      modifies this`kv, this`tags, this`slugs
      ensures Swept(old(Now()), Now(), Expired(old(kv), now), now) && n == |Expired(old(kv), now)|
    {
      hide Bare, Dropped, Objects, Swept, Culling;
      n := 0;
      SweepStart(Now(), now);
      var left := kv.Keys;
      ghost var base, expired, seen := Now(), Expired(kv, now), {};
      CullingStarts(left, expired);
      while left != {}
        invariant left <= kv.Keys && left <= base.kv.Keys && Culling(expired, left, seen) && n == |seen|
        invariant Swept(base, Now(), seen, now)
        decreases left
      {
        var l :| l in left;
        CullingStep(expired, left, seen, l);
        if l.exp <= now {
          DropEntry(l, now, base, seen);
          seen := seen + {l};
          n := n + 1;
        }
        left := left - {l};
      }
      CullingEnds(expired, seen);
    }

    /** The kv part of purge_object_blobs. */
    method PurgeObjectLinks(obj: string, now: nat)
      modifies this
      ensures Now() == Apply(old(Now()), PurgeObject(obj), now)
      ensures table == old(table) && albums == old(albums)
      ensures forall l :: l in kv <==> l in old(kv) && l.obj != obj
      ensures forall l :: l in rev <==> l in old(rev) && l.obj != obj
      ensures Loses(old(Now()), Now(), obj, true)
      ensures forall other :: other != obj ==> Loses(old(Now()), Now(), other, false)
    {
      hide Loses;
      PurgeObjectLoses(Now(), obj, now);
      kv := map l | l in kv && l.obj != obj :: kv[l];
      rev := set l | l in rev && l.obj != obj;
      tags := tags - {obj};
      slugs := map name | name in slugs && slugs[name] != obj :: slugs[name];
      assert slugs == map name | name in old(slugs) && old(slugs)[name] !in {obj} :: old(slugs)[name];
    }
  }

  /** base with the seen kv entries gone, and with them the tags of the objects this left bare. */
  ghost predicate Swept(base: Registry, t: Registry, seen: set<Link>, now: nat) {
    && t.table == base.table && t.kv == base.kv - seen && seen <= base.kv.Keys
    && var bare := Dropped(base, Bare(t, Objects(seen), now)); t.tags == bare.tags && t.slugs == bare.slugs
  }

  /** A loop over a set that picks out its targets: seen so far, and left to look at. */
  ghost predicate Culling(targets: set<Link>, left: set<Link>, seen: set<Link>) {
    seen <= targets <= seen + left && seen !! left
  }

  lemma CullingStarts(all: set<Link>, targets: set<Link>)
    requires targets <= all
    ensures Culling(targets, all, {})
  {
  }

  lemma CullingStep(targets: set<Link>, left: set<Link>, seen: set<Link>, l: Link)
    requires Culling(targets, left, seen) && l in left
    ensures l in targets ==> Culling(targets, left - {l}, seen + {l}) && |seen + {l}| == |seen| + 1
    ensures l !in targets ==> Culling(targets, left - {l}, seen)
  {
  }

  lemma CullingEnds(targets: set<Link>, seen: set<Link>)
    requires Culling(targets, {}, seen)
    ensures seen == targets
  {
  }

  lemma SweepStart(base: Registry, now: nat)
    ensures Swept(base, base, {}, now)
  {
    assert Objects({}) == {};
    DroppedNone(base);
    assert base.kv - {} == base.kv;
  }

  lemma SweptKeepsRev(base: Registry, t: Registry, seen: set<Link>, now: nat, rev: set<Link>)
    requires Swept(base, t, seen, now)
    ensures Swept(base, t.(rev := rev), seen, now)
  {
    assert Bare(t.(rev := rev), Objects(seen), now) == Bare(t, Objects(seen), now);
  }

  lemma SweepStep(base: Registry, before: Registry, mid: Registry, after: Registry, l: Link, seen: set<Link>, now: nat)
    requires Swept(base, before, seen, now) && l in before.kv
    requires mid == before.(kv := before.kv - {l}) && after == Cleaned(mid, l.obj, now)
    requires Bare(mid, Objects(seen + {l}), now) ==
      Bare(before, Objects(seen), now) + if HasLive(before.table, l.obj, now) || HasEntry(mid.kv, l.obj)
                                          then {} else {l.obj}
    ensures Swept(base, after, seen + {l}, now)
  {
    hide Bare, Objects;
    var a := Bare(before, Objects(seen), now);
    DroppedTwice(base, a, {l.obj});
    BareOf(mid, after, Objects(seen + {l}), now);
    assert a + {} == a;
    assert base.kv - (seen + {l}) == (base.kv - seen) - {l};
  }

  lemma BareOf(s: Registry, t: Registry, objs: set<string>, now: nat)
    requires s.kv == t.kv && s.table == t.table
    ensures Bare(s, objs, now) == Bare(t, objs, now)
  {
  }

  lemma RevokedAll(s: Registry, base: Registry, t: Registry, seen: set<Link>, now: nat)
    requires base == s.(table := RevokedTable(s.table), albums := map[])
    requires Swept(base, t, seen, now) && t.kv.Keys == {} && t.rev == base.rev + seen && t.albums == map[]
    ensures t == Apply(s, RevokeAll, now)
  {
    hide Dropped, Objects;
    assert t.kv == map[];
    forall l | l in base.kv
      ensures l in seen
    {
      assert l !in t.kv.Keys;
    }
    assert seen == base.kv.Keys;
    assert Bare(t, Objects(base.kv.Keys), now) == Objects(base.kv.Keys);
    DroppedParts(base, t.kv, t.rev, Objects(base.kv.Keys));
    DroppedKeeps(base, Objects(base.kv.Keys));
  }

  /** Only tags and names are dropped, whatever else changes. */
  lemma DroppedParts(s: Registry, kv: map<Link, Meta>, rev: set<Link>, objs: set<string>)
    ensures Dropped(s.(kv := kv, rev := rev), objs) == Dropped(s, objs).(kv := kv, rev := rev)
    ensures Dropped(s, objs).table == s.table
  {
  }

  lemma Purged(s: Registry, base: Registry, t: Registry, now: nat)
    requires base == s.(table := s.table - Stale(s.table, now), rev := s.rev - StaleTombs(s.rev, now))
    requires Swept(base, t, Expired(base.kv, now), now) && t.rev == base.rev && t.albums == base.albums
    ensures t == Apply(s, Purge, now)
  {
    hide Bare, Objects;
    BareOf(t, s.(table := base.table, kv := t.kv, rev := t.rev), Objects(Expired(s.kv, now)), now);
  }
}
