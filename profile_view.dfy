/**
 * The `profile` command: who may see whose profile, the furnace-level text,
 * and which fields the resulting card shows.
 *
 * The three stores the command reads (the admin list, the profile table and
 * the users table of the game-data database) are inputs, so that what the
 * command reads can be stated as what its result depends on.
 */
module ProfileView {
  import opened Wrappers
  import opened Decimal
  import opened LevelTranslator
  import opened ProfileStore
  import opened AdminGate

  /**
   * What reading the game-data database's `users` table yields: for every
   * FID with a row, its `furnace_lv` column (nullable).
   */
  datatype UsersStore =
    | UsersStoreError        // the database or the table cannot be read
    | UsersTable(furnaceLevel: map<int, Option<int>>)

  /** A card field: its name, its text and whether it sits inline. */
  datatype EmbedField = EmbedField(name: string, value: string, inline: bool)

  /** The command's reply: the refusal, or the profile card. */
  datatype View =
    | Denied(message: string)
    | Shown(title: string, fields: seq<EmbedField>, thumbnail: Option<string>)

  const DenialMessage := "\U{274C} You can only view your own profile."
  const UnknownLevel := "Unknown"

  /** Python truthiness of a nullable integer column: NULL and 0 are false. */
  predicate IntTruthy(v: Option<int>) {
    v.Some? && v.value != 0
  }

  /** Python truthiness of a nullable text column: NULL and "" are false. */
  predicate TextTruthy(v: Option<string>) {
    v.Some? && v.value != ""
  }

  /**
   * The text for a `furnace_lv` value that was found: the translated level,
   * or "None" (Python's `str(None)`) when the column is NULL.
   */
  function LevelText(level: Option<int>): string {
    match level
    case None => "None"
    case Some(l) => Translate(l)
  }

  /**
   * The furnace text: "Unknown" unless the FID is truthy and the users table
   * can be read and has a row for it. A failing read is swallowed.
   */
  function FurnaceText(fid: Option<int>, users: UsersStore): string {
    if !IntTruthy(fid) then UnknownLevel
    else match users
      case UsersStoreError => UnknownLevel
      case UsersTable(levels) =>
        if fid.value in levels then LevelText(levels[fid.value]) else UnknownLevel
  }

  function LocationText(x: int, y: int): string {
    "X: " + IntToString(x) + " Y: " + IntToString(y)
  }

  /** The card's fields in order: FID, Furnace Level, Location, Bear Trap, each only when it applies. */
  function CardFields(p: Profile, furnace: string): seq<EmbedField> {
    (if IntTruthy(p.fid) then [EmbedField("FID", IntToString(p.fid.value), true)] else [])
    + [EmbedField("Furnace Level", furnace, true)]
    + (if p.locationX.Some? && p.locationY.Some?
       then [EmbedField("Location", LocationText(p.locationX.value, p.locationY.value), false)]
       else [])
    + (if TextTruthy(p.bearTrap) then [EmbedField("Bear Trap", p.bearTrap.value, false)] else [])
  }

  /** The member whose profile is shown: the one named, or else the caller. */
  function Target(caller: int, member: Option<int>): int {
    if member.Some? then member.value else caller
  }

  /**
   * The `profile` command. A caller asking for somebody else's profile is
   * refused unless the admin list holds the caller; otherwise the card is
   * built from the target's row (all NULL when there is none).
   */
  function RenderProfile(caller: int, member: Option<int>, displayName: string,
                         admins: AdminStore, profiles: map<int, Profile>, users: UsersStore): View
  {
    var target := Target(caller, member);
    if target != caller && !IsAdmin(caller, admins) then Denied(DenialMessage)
    else
      var p := if target in profiles then profiles[target] else NullRow;
      Shown("Profile of " + displayName,
            CardFields(p, FurnaceText(p.fid, users)),
            if TextTruthy(p.profilePic) then Some(p.profilePic.value) else None)
  }

  /** The text of the first field with the given name, if there is one. */
  function FieldValue(fields: seq<EmbedField>, name: string): Option<string>
    decreases |fields|
  {
    if |fields| == 0 then None
    else if fields[0].name == name then Some(fields[0].value)
    else FieldValue(fields[1..], name)
  }

  lemma {:induction false} FieldValueAppend(a: seq<EmbedField>, b: seq<EmbedField>, name: string)
    ensures FieldValue(a + b, name) == if FieldValue(a, name).Some? then FieldValue(a, name) else FieldValue(b, name)
    decreases |a|
  {
    if |a| > 0 {
      assert (a + b)[0] == a[0];
      assert (a + b)[1..] == a[1..] + b;
      FieldValueAppend(a[1..], b, name);
    } else {
      assert a + b == b;
    }
  }

  /** Looking a name up in four consecutive parts searches them in order. */
  lemma FourPartLookup(a: seq<EmbedField>, b: seq<EmbedField>, c: seq<EmbedField>, d: seq<EmbedField>, name: string)
    ensures FieldValue(a + b + c + d, name) ==
      if FieldValue(a, name).Some? then FieldValue(a, name)
      else if FieldValue(b, name).Some? then FieldValue(b, name)
      else if FieldValue(c, name).Some? then FieldValue(c, name)
      else FieldValue(d, name)
  {
    FieldValueAppend(a + b + c, d, name);
    FieldValueAppend(a + b, c, name);
    FieldValueAppend(a, b, name);
  }

  // ----- Permission gate -----

  /** The view is refused exactly when the caller asks for somebody else and is not an admin. */
  lemma DeniedExactlyForOthersWithoutAdmin(caller: int, member: Option<int>, displayName: string,
                                           admins: AdminStore, profiles: map<int, Profile>, users: UsersStore)
    ensures var v := RenderProfile(caller, member, displayName, admins, profiles, users);
      v.Denied? <==> Target(caller, member) != caller && !IsAdmin(caller, admins)
    ensures RenderProfile(caller, member, displayName, admins, profiles, users).Denied? ==>
      RenderProfile(caller, member, displayName, admins, profiles, users).message == DenialMessage
  {
  }

  /**
   * A refused view reads nothing: its reply is the same whatever the profile
   * table and the users table hold, or whether they can be read at all.
   */
  lemma DeniedViewReadsNoStore(caller: int, member: Option<int>, displayName: string, admins: AdminStore,
                               profiles: map<int, Profile>, users: UsersStore,
                               profiles': map<int, Profile>, users': UsersStore)
    requires Target(caller, member) != caller && !IsAdmin(caller, admins)
    ensures RenderProfile(caller, member, displayName, admins, profiles, users)
         == RenderProfile(caller, member, displayName, admins, profiles', users')
         == Denied(DenialMessage)
  {
  }

  /** An unreadable admin list refuses every view of somebody else's profile. */
  lemma UnreadableAdminListRefusesOthers(caller: int, member: int, displayName: string,
                                         profiles: map<int, Profile>, users: UsersStore)
    requires member != caller
    ensures RenderProfile(caller, Some(member), displayName, AdminStoreError, profiles, users) == Denied(DenialMessage)
  {
  }

  /** Viewing one's own profile never consults the admin list and is never refused. */
  lemma OwnViewIgnoresAdminList(caller: int, member: Option<int>, displayName: string,
                                admins: AdminStore, admins': AdminStore,
                                profiles: map<int, Profile>, users: UsersStore)
    requires Target(caller, member) == caller
    ensures RenderProfile(caller, member, displayName, admins, profiles, users).Shown?
    ensures RenderProfile(caller, member, displayName, admins, profiles, users)
         == RenderProfile(caller, member, displayName, admins', profiles, users)
  {
  }

  // ----- Furnace text -----

  /**
   * The furnace text is "Unknown" exactly when the FID is NULL or 0, the
   * users table cannot be read, or it has no row for the FID; otherwise it
   * is the found level's text.
   */
  lemma FurnaceTextUnknownExactly(fid: Option<int>, users: UsersStore)
    ensures FurnaceText(fid, users) == UnknownLevel <==>
      !IntTruthy(fid) || users.UsersStoreError? || fid.value !in users.furnaceLevel
    ensures IntTruthy(fid) && users.UsersTable? && fid.value in users.furnaceLevel ==>
      FurnaceText(fid, users) == LevelText(users.furnaceLevel[fid.value])
  {
    if IntTruthy(fid) && users.UsersTable? && fid.value in users.furnaceLevel {
      match users.furnaceLevel[fid.value]
      case None =>
      case Some(l) =>
        TranslateStartsLikeALevel(l);
        assert Translate(l)[0] != UnknownLevel[0];
    }
  }

  /** The furnace text never depends on the users table when the FID is NULL or 0. */
  lemma FurnaceTextSkipsLookupWithoutFid(fid: Option<int>, users: UsersStore, users': UsersStore)
    requires !IntTruthy(fid)
    ensures FurnaceText(fid, users) == FurnaceText(fid, users') == UnknownLevel
  {
  }

  // ----- Card fields -----

  /**
   * What the card shows for the target's row: the FID when it is truthy,
   * the furnace text always, the location when both coordinates are set,
   * the bear-trap note and the thumbnail when they are truthy.
   */
  lemma CardShowsFieldsWhenSet(p: Profile, furnace: string)
    ensures var fields := CardFields(p, furnace);
      && FieldValue(fields, "FID") == (if IntTruthy(p.fid) then Some(IntToString(p.fid.value)) else None)
      && FieldValue(fields, "Furnace Level") == Some(furnace)
      && FieldValue(fields, "Location") ==
           (if p.locationX.Some? && p.locationY.Some?
            then Some(LocationText(p.locationX.value, p.locationY.value)) else None)
      && FieldValue(fields, "Bear Trap") == (if TextTruthy(p.bearTrap) then Some(p.bearTrap.value) else None)
  {
    var fid := if IntTruthy(p.fid) then [EmbedField("FID", IntToString(p.fid.value), true)] else [];
    var furnaceField := [EmbedField("Furnace Level", furnace, true)];
    var loc := if p.locationX.Some? && p.locationY.Some?
               then [EmbedField("Location", LocationText(p.locationX.value, p.locationY.value), false)]
               else [];
    var trap := if TextTruthy(p.bearTrap) then [EmbedField("Bear Trap", p.bearTrap.value, false)] else [];
    assert CardFields(p, furnace) == fid + furnaceField + loc + trap;
    FourPartLookup(fid, furnaceField, loc, trap, "FID");
    FourPartLookup(fid, furnaceField, loc, trap, "Furnace Level");
    FourPartLookup(fid, furnaceField, loc, trap, "Location");
    FourPartLookup(fid, furnaceField, loc, trap, "Bear Trap");
  }

  /**
   * A view that is not refused shows the card built from the target's
   * stored row (all NULL when there is none), with its fields in the order
   * FID, Furnace Level, Location, Bear Trap and nothing else, each with the
   * text stated here.
   */
  lemma ShownViewFollowsRow(caller: int, member: Option<int>, displayName: string,
                            admins: AdminStore, profiles: map<int, Profile>, users: UsersStore)
    requires Target(caller, member) == caller || IsAdmin(caller, admins)
    ensures var v := RenderProfile(caller, member, displayName, admins, profiles, users);
      var t := Target(caller, member);
      var p := if t in profiles then profiles[t] else NullRow;
      && v.Shown?
      && v.title == "Profile of " + displayName
      && v.fields == CardFields(p, FurnaceText(p.fid, users))
      && FieldValue(v.fields, "FID") == (if IntTruthy(p.fid) then Some(IntToString(p.fid.value)) else None)
      && FieldValue(v.fields, "Furnace Level") == Some(FurnaceText(p.fid, users))
      && FieldValue(v.fields, "Location") ==
           (if p.locationX.Some? && p.locationY.Some?
            then Some(LocationText(p.locationX.value, p.locationY.value)) else None)
      && FieldValue(v.fields, "Bear Trap") == (if TextTruthy(p.bearTrap) then Some(p.bearTrap.value) else None)
      && (v.thumbnail.Some? <==> TextTruthy(p.profilePic))
      && (v.thumbnail.Some? ==> v.thumbnail.value == p.profilePic.value)
  {
    var t := Target(caller, member);
    var p := if t in profiles then profiles[t] else NullRow;
    CardShowsFieldsWhenSet(p, FurnaceText(p.fid, users));
  }

  /** A member without a stored profile gets a card with only "Furnace Level: Unknown" and no thumbnail. */
  lemma MissingProfileShowsOnlyUnknownLevel(caller: int, member: Option<int>, displayName: string,
                                            admins: AdminStore, profiles: map<int, Profile>, users: UsersStore)
    requires Target(caller, member) == caller || IsAdmin(caller, admins)
    requires Target(caller, member) !in profiles
    ensures RenderProfile(caller, member, displayName, admins, profiles, users)
         == Shown("Profile of " + displayName, [EmbedField("Furnace Level", UnknownLevel, true)], None)
  {
    assert CardFields(NullRow, UnknownLevel) == [EmbedField("Furnace Level", UnknownLevel, true)];
  }
}
