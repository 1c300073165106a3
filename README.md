# Member profiles: a verified model

This project models the member-profile part of a Discord bot for the game
Whiteout Survival (`cogs/user_profile.py`). Members store a small profile:
their in-game FID, base coordinates, a Bear Trap note and a picture URL. The
bot keeps these in a `profiles` table keyed by Discord id and shows them as a
card. The model has four modules:

- `LevelTranslator` holds the fixed table of furnace-level labels for
  levels 31..84 ("30-1".."30-4", then "FC n" and "FC n - k"). Every other
  level is shown as its decimal string. `Decimal` models Python's `str` on
  ints and provides a parser as its inverse. The table is written as a
  `match` over the 54 literal levels, entry for entry as the source's
  dictionary.
- `ProfileStore` models the `profiles` table as a class `ProfileTable`
  that holds a `map<int, Profile>`. `Upsert` runs an UPDATE of the supplied
  columns. It runs an INSERT only when that UPDATE matched no row; the INSERT
  carries the primary-key check, and `Upsert` proves the check never fires.
  The pure function `Upserted` specifies the table after one call. Lemmas
  about it cover row creation, updates that touch only the named columns,
  idempotence, commutation of disjoint writes and one row per member. The
  four setter commands each pass a fixed column set (`FidPatch`,
  `LocationPatch`, `BearTrapPatch`, `ProfilePicPatch`).
- `AdminGate.IsAdmin` looks the caller up in the admin list and fails
  closed when the list cannot be read.
- `ProfileView.RenderProfile` models the `profile` command as a pure
  function. Its inputs are the caller, the optional member asked for, the
  member's display name and the three stores it reads. Those stores are the
  admin list, the profile table's rows and the game-data `users` table
  (FID to nullable `furnace_lv`). The admin list and the users table each
  have a constructor for a store that cannot be read. The result is the refusal, or the card: title,
  fields in order, and an optional thumbnail.

Behaviour of the code that the model keeps:

- Showing another member's profile is restricted to administrators, as the
  code does it.
- A users row whose `furnace_lv` is NULL shows the text "None", since the
  code computes `str(None)`; it does not show "Unknown".
- The Bear Trap field, the FID field and the thumbnail are hidden when their
  value is falsy. So an empty string and an FID of 0 are not shown, although
  they are stored.

## Model

| member | source | states |
|---|---|---|
| Decimal.NatToString | cogs/user_profile.py:120 | Python's str of a non-negative int: at least one character, all decimal digits, and '0' first only for the string "0" of the value 0 |
| Decimal.IntToString | cogs/user_profile.py:120 | Python's str of any int: starts with a minus sign exactly when the value is negative, the minus sign is followed by a non-zero leading digit, otherwise it starts with a digit, and '0' first only for the string "0" |
| Decimal.NatRoundTrip | cogs/user_profile.py:120 | parsing the decimal digits of n gives n back |
| Decimal.RoundTrip | cogs/user_profile.py:120 | parsing str(i) gives i back, for every int i, negative ones included |
| Decimal.IntToStringInjective | cogs/user_profile.py:120 | distinct ints never render as the same string |
| LevelTranslator.LevelMapping | cogs/user_profile.py:14-26 | the 54 entries of `level_mapping`, one match case per entry; an entry exists exactly for the levels 31..84 (its own ensures), and TranslateFollowsConvention, the row lemmas and TableExamples state the entries |
| LevelTranslator.Translate | cogs/user_profile.py:120 | `level_mapping.get(level, str(level))`; specified by TranslateFollowsConvention (the table entry on 31..84, str(level) elsewhere), UnmappedLevelParsesBack, TranslateStartsLikeALevel, TableExamples and FallbackExamples |
| LevelTranslator.Stage30Row | cogs/user_profile.py:15 | levels 31..34 are labelled "30-1".."30-4" |
| LevelTranslator.StageFc1Row | cogs/user_profile.py:16 | levels 35..39 are labelled "FC 1", "FC 1 - 1".."FC 1 - 4" |
| LevelTranslator.StageFc2Row | cogs/user_profile.py:17 | levels 40..44 are labelled "FC 2", "FC 2 - 1".."FC 2 - 4" |
| LevelTranslator.StageFc3Row | cogs/user_profile.py:18 | levels 45..49 are labelled "FC 3", "FC 3 - 1".."FC 3 - 4" |
| LevelTranslator.StageFc4Row | cogs/user_profile.py:19 | levels 50..54 are labelled "FC 4", "FC 4 - 1".."FC 4 - 4" |
| LevelTranslator.StageFc5Row | cogs/user_profile.py:20 | levels 55..59 are labelled "FC 5", "FC 5 - 1".."FC 5 - 4" |
| LevelTranslator.StageFc6Row | cogs/user_profile.py:21 | levels 60..64 are labelled "FC 6", "FC 6 - 1".."FC 6 - 4" |
| LevelTranslator.StageFc7Row | cogs/user_profile.py:22 | levels 65..69 are labelled "FC 7", "FC 7 - 1".."FC 7 - 4" |
| LevelTranslator.StageFc8Row | cogs/user_profile.py:23 | levels 70..74 are labelled "FC 8", "FC 8 - 1".."FC 8 - 4" |
| LevelTranslator.StageFc9Row | cogs/user_profile.py:24 | levels 75..79 are labelled "FC 9", "FC 9 - 1".."FC 9 - 4" |
| LevelTranslator.StageFc10Row | cogs/user_profile.py:25 | levels 80..84 are labelled "FC 10", "FC 10 - 1".."FC 10 - 4" |
| LevelTranslator.TranslateFollowsConvention | cogs/user_profile.py:14-26 | for every int: the table has an entry exactly for 31..84, the entry follows the 30-k / FC n / FC n - k convention, and any other level is shown as its decimal string |
| LevelTranslator.TableExamples | cogs/user_profile.py:14-26 | 31 gives "30-1", 34 "30-4", 35 "FC 1", 36 "FC 1 - 1", 80 "FC 10", 84 "FC 10 - 4" |
| LevelTranslator.FallbackExamples | cogs/user_profile.py:120 | 30, 85, 100, 0 and -5 are shown as "30", "85", "100", "0", "-5" |
| LevelTranslator.UnmappedLevelParsesBack | cogs/user_profile.py:120 | the label of a level outside the table parses back to that level |
| LevelTranslator.TranslateStartsLikeALevel | cogs/user_profile.py:14-26 | every label starts with a digit, '-' or 'F', so no label equals the placeholder "Unknown" or "None" |
| ProfileStore.Columns | cogs/user_profile.py:57 | the columns an upsert names are exactly the keyword arguments it is given |
| ProfileStore.Apply | cogs/user_profile.py:57-63 | SET writes the supplied value into every named column and keeps every other column of the row |
| ProfileStore.FidPatch | cogs/user_profile.py:75 | set_fid names only the fid column, with the given FID |
| ProfileStore.LocationPatch | cogs/user_profile.py:80 | set_location names exactly location_x and location_y, with the given coordinates |
| ProfileStore.BearTrapPatch | cogs/user_profile.py:85 | set_beartrap names only the bear_trap column, with the given text |
| ProfileStore.ProfilePicPatch | cogs/user_profile.py:90 | set_pfp names only the profile_pic column, with the given URL |
| ProfileStore.Upserted | cogs/user_profile.py:56-71 | the table after one upsert; specified by UpsertCreatesRow, UpsertUpdatesNamedColumns, UpsertIdempotent, UpsertsCommute and UpsertsKeepOneRowPerMember, and tied to ProfileTable.Upsert by its ensures |
| ProfileStore.UpsertCreatesRow | cogs/user_profile.py:64-70 | for a member without a row, an upsert adds exactly one row (one more key, nothing else changed) whose named columns hold the given values and whose other columns are NULL |
| ProfileStore.UpsertUpdatesNamedColumns | cogs/user_profile.py:57-63 | for a member with a row, an upsert keeps the key set, changes only the named columns of that row and leaves every other member's row alone |
| ProfileStore.UpsertIdempotent | cogs/user_profile.py:56-71 | repeating an upsert with the same arguments leaves the table as one upsert does |
| ProfileStore.UpsertsCommute | cogs/user_profile.py:56-71 | two upserts commute when they are for different members or name disjoint columns of the same member |
| ProfileStore.LocationWrittenTogether | cogs/user_profile.py:80 | after set_location both coordinates of the member's row are set, whatever the table held |
| ProfileStore.SettersCommute | cogs/user_profile.py:73-91 | any two of the four setters, applied to the same member in either order, give the same table |
| ProfileStore.UpsertsKeepOneRowPerMember | cogs/user_profile.py:36 | after any sequence of upserts the rows are exactly one per member that had a row or was written to, and the row of a member no call writes to is unchanged |
| ProfileStore.ProfileTable.constructor | cogs/user_profile.py:32-45 | a table created on a fresh database is empty (the first start only: over an existing database file the table keeps its rows, which the model takes as any `rows`) |
| ProfileStore.ProfileTable.Update | cogs/user_profile.py:60-63 | UPDATE with no column is a syntax error that changes nothing; otherwise it reports a row count of 1 and rewrites the named columns when the member has a row, and 0 with no change when not |
| ProfileStore.ProfileTable.Insert | cogs/user_profile.py:64-70 | INSERT adds the member's row with NULL in the unnamed columns, or is refused by the primary key when the member already has a row |
| ProfileStore.ProfileTable.Upsert | cogs/user_profile.py:56-71 | the table afterwards is the specified upsert of the table before; the outcome is Updated for an existing member, Inserted for a new one, the error for an empty column list, and never a primary-key violation |
| ProfileStore.ProfileTable.SetFid | cogs/user_profile.py:73-76 | the member's row holds the given FID afterwards, and nothing else changed beyond the upsert |
| ProfileStore.ProfileTable.SetLocation | cogs/user_profile.py:78-81 | the member's row holds both given coordinates afterwards |
| ProfileStore.ProfileTable.SetBearTrap | cogs/user_profile.py:83-86 | the member's row holds the given bear-trap text afterwards |
| ProfileStore.ProfileTable.SetProfilePic | cogs/user_profile.py:88-91 | the member's row holds the given picture URL afterwards |
| AdminGate.IsAdmin | cogs/user_profile.py:47-54 | true exactly when the admin list can be read and holds the user; an unreadable store gives false |
| ProfileView.Target | cogs/user_profile.py:95 | the member named, or the caller when none is named; its use is specified by OwnViewIgnoresAdminList and DeniedExactlyForOthersWithoutAdmin |
| ProfileView.LevelText | cogs/user_profile.py:118-120 | the text for a found `furnace_lv`: the translated level, or "None" for NULL; specified through FurnaceTextUnknownExactly and TranslateStartsLikeALevel |
| ProfileView.FurnaceText | cogs/user_profile.py:111-122 | the furnace text; specified by FurnaceTextUnknownExactly and FurnaceTextSkipsLookupWithoutFid |
| ProfileView.CardFields | cogs/user_profile.py:124-131 | the card's fields in source order; specified by CardShowsFieldsWhenSet and MissingProfileShowsOnlyUnknownLevel |
| ProfileView.RenderProfile | cogs/user_profile.py:93-134 | the `profile` command; specified by DeniedExactlyForOthersWithoutAdmin, DeniedViewReadsNoStore, UnreadableAdminListRefusesOthers, OwnViewIgnoresAdminList, ShownViewFollowsRow and MissingProfileShowsOnlyUnknownLevel |
| ProfileView.DeniedExactlyForOthersWithoutAdmin | cogs/user_profile.py:95-101 | the reply is the refusal, with its fixed message, exactly when the target is somebody else and the caller is not an admin |
| ProfileView.DeniedViewReadsNoStore | cogs/user_profile.py:96-101 | a refused view gives the same refusal whatever the profile table and the users table hold or whether they can be read |
| ProfileView.UnreadableAdminListRefusesOthers | cogs/user_profile.py:53-54 | when the admin list cannot be read, viewing another member's profile is refused |
| ProfileView.OwnViewIgnoresAdminList | cogs/user_profile.py:95-97 | viewing one's own profile (also by naming no member) is never refused and does not depend on the admin list |
| ProfileView.FurnaceTextUnknownExactly | cogs/user_profile.py:111-122 | the furnace text is "Unknown" exactly when the FID is NULL or 0, the users table cannot be read, or it has no row for the FID; otherwise it is the found level's text |
| ProfileView.FurnaceTextSkipsLookupWithoutFid | cogs/user_profile.py:111-112 | with a NULL or 0 FID the furnace text is "Unknown" whatever the users table holds |
| ProfileView.CardShowsFieldsWhenSet | cogs/user_profile.py:125-131 | the card has a FID field with str(fid) exactly when fid is truthy, always a Furnace Level field with the furnace text, a Location field "X: x Y: y" exactly when both coordinates are non-NULL, and a Bear Trap field exactly when the note is truthy |
| ProfileView.ShownViewFollowsRow | cogs/user_profile.py:102-133 | a view that is not refused shows the target's stored row (all NULL when absent): its title, exactly the fields FID, Furnace Level, Location, Bear Trap in that order, each only under its condition and with its text (str(fid), the furnace text, "X: x Y: y", the note), and the thumbnail exactly when profile_pic is truthy |
| ProfileView.MissingProfileShowsOnlyUnknownLevel | cogs/user_profile.py:102-133 | a member with no stored row gets a card whose only field is "Furnace Level: Unknown", with no thumbnail |

## Left out

- Discord plumbing is not modelled: command registration, `setup`, `cog_unload`, the acknowledgement messages of the four setters, ephemeral delivery, the embed colour and its rendering. The member's display name is a parameter.
- SQLite plumbing is not modelled: connections, file paths, `CREATE TABLE`, commits. A failing `SELECT` on the profile table during a view would raise and end the command; the model always reads the rows it is given.
- The race between two interleaved upserts for a new member is not modelled. `Upsert` is sequential and atomic.
- `Patch` can only supply non-NULL values. No command passes NULL for a column.
- `furnace_lv` is modelled as a nullable integer, after the `users` schema in `tests/test_admin_permissions.py`. Its FID column is the primary key there, so the table is a map from FID to level.
- `tests/test_admin_permissions.py` is not modelled. It exercises a cog that is not part of this model.
- The first-link merge/backup confirmation workflow and the per-member skip flag are not modelled. They do not appear in `cogs/user_profile.py`.
