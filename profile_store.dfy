/**
 * The per-member profile table and its insert-or-update write path.
 *
 * The table is keyed by the member's Discord id; every other column is
 * nullable. A write names only the columns it sets: it first updates those
 * columns of the member's row, and inserts a new row (with the unnamed
 * columns left null) only when that update matched no row.
 */
module ProfileStore {
  import opened Wrappers

  /** One row of the `profiles` table, without its key. None is SQL NULL. */
  datatype Profile = Profile(
    fid: Option<int>,
    locationX: Option<int>,
    locationY: Option<int>,
    bearTrap: Option<string>,
    profilePic: Option<string>)

  /** The row an INSERT starts from: every non-key column null. */
  const NullRow := Profile(None, None, None, None, None)

  datatype Column = Fid | LocationX | LocationY | BearTrap | ProfilePic

  /** A column's stored value, whatever the column's SQL type. */
  datatype Value = IntValue(i: int) | TextValue(t: string)

  /**
   * The keyword arguments of one upsert: Some(v) for a column the caller
   * passes, None for a column it does not pass.
   */
  datatype Patch = Patch(
    fid: Option<int>,
    locationX: Option<int>,
    locationY: Option<int>,
    bearTrap: Option<string>,
    profilePic: Option<string>)

  function IntColumn(v: Option<int>): Option<Value> {
    match v
    case None => None
    case Some(i) => Some(IntValue(i))
  }

  function TextColumn(v: Option<string>): Option<Value> {
    match v
    case None => None
    case Some(t) => Some(TextValue(t))
  }

  /** The value a row holds in column `c` (None for NULL). */
  function Get(row: Profile, c: Column): Option<Value> {
    match c
    case Fid => IntColumn(row.fid)
    case LocationX => IntColumn(row.locationX)
    case LocationY => IntColumn(row.locationY)
    case BearTrap => TextColumn(row.bearTrap)
    case ProfilePic => TextColumn(row.profilePic)
  }

  /** The value a patch supplies for column `c` (None when it does not name `c`). */
  function Supplied(p: Patch, c: Column): Option<Value> {
    match c
    case Fid => IntColumn(p.fid)
    case LocationX => IntColumn(p.locationX)
    case LocationY => IntColumn(p.locationY)
    case BearTrap => TextColumn(p.bearTrap)
    case ProfilePic => TextColumn(p.profilePic)
  }

  /** The columns a patch names: the `col=?` list of its UPDATE. */
  function Columns(p: Patch): (cs: set<Column>)
    ensures forall c :: c in cs <==> Supplied(p, c).Some?
  {
    (if p.fid.Some? then {Fid} else {})
    + (if p.locationX.Some? then {LocationX} else {})
    + (if p.locationY.Some? then {LocationY} else {})
    + (if p.bearTrap.Some? then {BearTrap} else {})
    + (if p.profilePic.Some? then {ProfilePic} else {})
  }

  /** `SET col=? ...`: the named columns take the patch's values, the rest keep the row's. */
  function Apply(row: Profile, p: Patch): (r: Profile)
    ensures forall c :: Get(r, c) == if c in Columns(p) then Supplied(p, c) else Get(row, c)
  {
    Profile(
      if p.fid.Some? then p.fid else row.fid,
      if p.locationX.Some? then p.locationX else row.locationX,
      if p.locationY.Some? then p.locationY else row.locationY,
      if p.bearTrap.Some? then p.bearTrap else row.bearTrap,
      if p.profilePic.Some? then p.profilePic else row.profilePic)
  }

  /** Two rows that agree on every column are the same row. */
  lemma RowsEqualByColumns(a: Profile, b: Profile)
    requires forall c :: Get(a, c) == Get(b, c)
    ensures a == b
  {
    assert Get(a, Fid) == Get(b, Fid);
    assert Get(a, LocationX) == Get(b, LocationX);
    assert Get(a, LocationY) == Get(b, LocationY);
    assert Get(a, BearTrap) == Get(b, BearTrap);
    assert Get(a, ProfilePic) == Get(b, ProfilePic);
  }

  // ----- The fixed column sets of the four setter commands -----

  /** `set_fid`: the FID column only. */
  function FidPatch(fid: int): (p: Patch)
    ensures Columns(p) == {Fid} && Supplied(p, Fid) == Some(IntValue(fid))
  {
    Patch(Some(fid), None, None, None, None)
  }

  /** `set_location`: both coordinates, always together. */
  function LocationPatch(x: int, y: int): (p: Patch)
    ensures Columns(p) == {LocationX, LocationY}
    ensures Supplied(p, LocationX) == Some(IntValue(x)) && Supplied(p, LocationY) == Some(IntValue(y))
  {
    Patch(None, Some(x), Some(y), None, None)
  }

  /** `set_beartrap`: the bear-trap text only. */
  function BearTrapPatch(info: string): (p: Patch)
    ensures Columns(p) == {BearTrap} && Supplied(p, BearTrap) == Some(TextValue(info))
  {
    Patch(None, None, None, Some(info), None)
  }

  /** `set_pfp`: the profile-picture URL only. */
  function ProfilePicPatch(url: string): (p: Patch)
    ensures Columns(p) == {ProfilePic} && Supplied(p, ProfilePic) == Some(TextValue(url))
  {
    Patch(None, None, None, None, Some(url))
  }

  // ----- Table-level specification -----

  /**
   * The table after one upsert. A patch that names no column leaves the
   * table as it was: the UPDATE it would build (`SET  WHERE`) is not valid
   * SQL and the call fails before anything is written.
   */
  function Upserted(rows: map<int, Profile>, owner: int, p: Patch): map<int, Profile> {
    if Columns(p) == {} then rows
    else if owner in rows then rows[owner := Apply(rows[owner], p)]
    else rows[owner := Apply(NullRow, p)]
  }

  /** A member without a row gets exactly one new row: the named columns set, the others null. */
  lemma UpsertCreatesRow(rows: map<int, Profile>, owner: int, p: Patch)
    requires owner !in rows && Columns(p) != {}
    ensures var r := Upserted(rows, owner, p);
      && r.Keys == rows.Keys + {owner}
      && |r| == |rows| + 1
      && (forall c :: Get(r[owner], c) == Supplied(p, c))
      && (forall o :: o in rows ==> r[o] == rows[o])
  {
    var row := Apply(NullRow, p);
    assert Upserted(rows, owner, p) == rows[owner := row];
    forall c
      ensures Get(row, c) == Supplied(p, c)
    {
      assert Get(NullRow, c) == None;
    }
  }

  /**
   * On a member that has a row, an upsert changes only the named columns of
   * that row; the row's other columns and every other member's row stay.
   */
  lemma UpsertUpdatesNamedColumns(rows: map<int, Profile>, owner: int, p: Patch)
    requires owner in rows
    ensures var r := Upserted(rows, owner, p);
      && r.Keys == rows.Keys
      && (forall c :: Get(r[owner], c) == if c in Columns(p) then Supplied(p, c) else Get(rows[owner], c))
      && (forall o :: o in rows && o != owner ==> r[o] == rows[o])
  {
  }

  /** Upserting the same patch twice is the same as upserting it once. */
  lemma UpsertIdempotent(rows: map<int, Profile>, owner: int, p: Patch)
    ensures Upserted(Upserted(rows, owner, p), owner, p) == Upserted(rows, owner, p)
  {
    var once := Upserted(rows, owner, p);
    if Columns(p) != {} {
      RowsEqualByColumns(Apply(once[owner], p), once[owner]);
    }
  }

  /**
   * Two upserts for the same member that name disjoint column sets give the
   * same table in either order; upserts for different members always do.
   */
  lemma UpsertsCommute(rows: map<int, Profile>, a: int, p: Patch, b: int, q: Patch)
    requires a == b ==> Columns(p) !! Columns(q)
    ensures Upserted(Upserted(rows, a, p), b, q) == Upserted(Upserted(rows, b, q), a, p)
  {
    if a == b && Columns(p) != {} && Columns(q) != {} {
      var base := if a in rows then rows[a] else NullRow;
      var pq := Apply(Apply(base, p), q);
      var qp := Apply(Apply(base, q), p);
      RowsEqualByColumns(pq, qp);
      assert Upserted(Upserted(rows, a, p), b, q) == rows[a := pq];
      assert Upserted(Upserted(rows, b, q), a, p) == rows[a := qp];
    }
  }

  /** Whatever the table held, `set_location` leaves both coordinates of the member's row set. */
  lemma LocationWrittenTogether(rows: map<int, Profile>, owner: int, x: int, y: int)
    ensures var r := Upserted(rows, owner, LocationPatch(x, y));
      owner in r && r[owner].locationX == Some(x) && r[owner].locationY == Some(y)
  {
  }

  /** The four setters name pairwise disjoint column sets, so their writes commute. */
  lemma SettersCommute(rows: map<int, Profile>, owner: int, fid: int, x: int, y: int, info: string, url: string)
    ensures var f, l := FidPatch(fid), LocationPatch(x, y);
      Upserted(Upserted(rows, owner, f), owner, l) == Upserted(Upserted(rows, owner, l), owner, f)
    ensures var f, b := FidPatch(fid), BearTrapPatch(info);
      Upserted(Upserted(rows, owner, f), owner, b) == Upserted(Upserted(rows, owner, b), owner, f)
    ensures var f, u := FidPatch(fid), ProfilePicPatch(url);
      Upserted(Upserted(rows, owner, f), owner, u) == Upserted(Upserted(rows, owner, u), owner, f)
    ensures var l, b := LocationPatch(x, y), BearTrapPatch(info);
      Upserted(Upserted(rows, owner, l), owner, b) == Upserted(Upserted(rows, owner, b), owner, l)
    ensures var l, u := LocationPatch(x, y), ProfilePicPatch(url);
      Upserted(Upserted(rows, owner, l), owner, u) == Upserted(Upserted(rows, owner, u), owner, l)
    ensures var b, u := BearTrapPatch(info), ProfilePicPatch(url);
      Upserted(Upserted(rows, owner, b), owner, u) == Upserted(Upserted(rows, owner, u), owner, b)
  {
    UpsertsCommute(rows, owner, FidPatch(fid), owner, LocationPatch(x, y));
    UpsertsCommute(rows, owner, FidPatch(fid), owner, BearTrapPatch(info));
    UpsertsCommute(rows, owner, FidPatch(fid), owner, ProfilePicPatch(url));
    UpsertsCommute(rows, owner, LocationPatch(x, y), owner, BearTrapPatch(info));
    UpsertsCommute(rows, owner, LocationPatch(x, y), owner, ProfilePicPatch(url));
    UpsertsCommute(rows, owner, BearTrapPatch(info), owner, ProfilePicPatch(url));
  }

  /** One upsert call: the member it is for and the columns it passes. */
  datatype Call = Call(owner: int, patch: Patch)

  /** The table after a sequence of upsert calls, applied in order. */
  function UpsertedAll(rows: map<int, Profile>, calls: seq<Call>): map<int, Profile>
    decreases |calls|
  {
    if |calls| == 0 then rows
    else UpsertedAll(Upserted(rows, calls[0].owner, calls[0].patch), calls[1..])
  }

  /** The members a sequence of calls writes to (calls that name no column write nothing). */
  function Writers(calls: seq<Call>): set<int>
    decreases |calls|
  {
    if |calls| == 0 then {}
    else (if Columns(calls[0].patch) != {} then {calls[0].owner} else {}) + Writers(calls[1..])
  }

  /**
   * After any sequence of upserts the table has one row per member that
   * had a row before or was written to, and no other rows; a row once
   * created is never removed, and the row of a member no call writes to
   * is left exactly as it was.
   */
  lemma {:induction false} UpsertsKeepOneRowPerMember(rows: map<int, Profile>, calls: seq<Call>)
    ensures UpsertedAll(rows, calls).Keys == rows.Keys + Writers(calls)
    ensures forall o :: o in rows && o !in Writers(calls) ==> UpsertedAll(rows, calls)[o] == rows[o]
    decreases |calls|
  {
    if |calls| > 0 {
      var next := Upserted(rows, calls[0].owner, calls[0].patch);
      UpsertsKeepOneRowPerMember(next, calls[1..]);
      assert Writers(calls) == (if Columns(calls[0].patch) != {} then {calls[0].owner} else {}) + Writers(calls[1..]);
    }
  }

  // ----- The table object -----

  /** What one execution of an UPDATE statement reports. */
  datatype Execution = RowCount(n: nat) | SyntaxError

  /** How an upsert call ends. */
  datatype Outcome =
    | Updated             // the UPDATE matched the member's row
    | Inserted            // the UPDATE matched nothing and the INSERT created the row
    | EmptyColumnList     // no column was named: the UPDATE statement is malformed and raises
    | IntegrityViolation  // the INSERT hit an existing key and raises

  /** The `profiles` table, held as a map from Discord id to row. */
  class ProfileTable {
    var rows: map<int, Profile>

    /** `CREATE TABLE IF NOT EXISTS profiles` on a fresh database. */
    constructor ()
      ensures rows == map[]
    {
      rows := map[];
    }

    /** `UPDATE profiles SET <named columns> WHERE discord_id=?`, with its row count. */
    method Update(owner: int, p: Patch) returns (e: Execution)
      modifies this
      ensures Columns(p) == {} ==> e == SyntaxError && rows == old(rows)
      ensures Columns(p) != {} ==> e == RowCount(if owner in old(rows) then 1 else 0)
      ensures Columns(p) != {} && owner in old(rows) ==> rows == old(rows)[owner := Apply(old(rows)[owner], p)]
      ensures Columns(p) != {} && owner !in old(rows) ==> rows == old(rows)
    {
      if Columns(p) == {} {
        return SyntaxError;
      }
      if owner in rows {
        rows := rows[owner := Apply(rows[owner], p)];
        e := RowCount(1);
      } else {
        e := RowCount(0);
      }
    }

    /**
     * `INSERT INTO profiles (<named columns>, discord_id) VALUES (...)`;
     * the primary key refuses a second row for the same member.
     */
    method Insert(owner: int, p: Patch) returns (violation: bool)
      modifies this
      ensures violation == (owner in old(rows))
      ensures rows == if violation then old(rows) else old(rows)[owner := Apply(NullRow, p)]
    {
      violation := owner in rows;
      if !violation {
        rows := rows[owner := Apply(NullRow, p)];
      }
    }

    /**
     * `upsert_profile`: update the named columns, and insert only when the
     * update matched no row. The insert therefore never meets an existing
     * key.
     */
    method Upsert(owner: int, p: Patch) returns (outcome: Outcome)
      modifies this
      ensures rows == Upserted(old(rows), owner, p)
      ensures outcome == if Columns(p) == {} then EmptyColumnList
                         else if owner in old(rows) then Updated
                         else Inserted
    {
      var e := Update(owner, p);
      if e == SyntaxError {
        return EmptyColumnList;
      }
      if e.n == 0 {
        var violation := Insert(owner, p);
        outcome := if violation then IntegrityViolation else Inserted;
      } else {
        outcome := Updated;
      }
    }

    /** The `set_fid` command's write. */
    method SetFid(owner: int, fid: int)
      modifies this
      ensures rows == Upserted(old(rows), owner, FidPatch(fid))
      ensures owner in rows && rows[owner].fid == Some(fid)
    {
      var _ := Upsert(owner, FidPatch(fid));
    }

    /** The `set_location` command's write. */
    method SetLocation(owner: int, x: int, y: int)
      modifies this
      ensures rows == Upserted(old(rows), owner, LocationPatch(x, y))
      ensures owner in rows && rows[owner].locationX == Some(x) && rows[owner].locationY == Some(y)
    {
      var _ := Upsert(owner, LocationPatch(x, y));
    }

    /** The `set_beartrap` command's write. */
    method SetBearTrap(owner: int, info: string)
      modifies this
      ensures rows == Upserted(old(rows), owner, BearTrapPatch(info))
      ensures owner in rows && rows[owner].bearTrap == Some(info)
    {
      var _ := Upsert(owner, BearTrapPatch(info));
    }

    /** The `set_pfp` command's write. */
    method SetProfilePic(owner: int, url: string)
      modifies this
      ensures rows == Upserted(old(rows), owner, ProfilePicPatch(url))
      ensures owner in rows && rows[owner].profilePic == Some(url)
    {
      var _ := Upsert(owner, ProfilePicPatch(url));
    }
  }
}
