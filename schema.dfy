/** The generated database types: the three enumerations with their constant
    arrays, and the Row, Insert and Update shapes of the `complaints` and
    `complaint_updates` tables.

    A shape maps each column name to its type, whether the key may be left
    out (`column?:` in the source) and whether the value may be `null`
    (`| null`). A record is a JSON object: a map from column names to
    values, where a missing key is an omitted (undefined) field. */
module Schema {
  import opened Wrappers

  datatype IssueStatus = Registered | Assigned | InProgress | Resolved
  datatype IssueType = StreetLight | Pothole | Garbage | Drainage | Others
  datatype UserRole = Citizen | Admin | FieldOfficer

  /** The string literal of each member of `issue_status`. */
  function StatusName(s: IssueStatus): string {
    match s
    case Registered => "registered"
    case Assigned => "assigned"
    case InProgress => "in_progress"
    case Resolved => "resolved"
  }

  /** The position of each member in the declaration of `issue_status`. */
  function StatusIndex(s: IssueStatus): nat {
    match s
    case Registered => 0
    case Assigned => 1
    case InProgress => 2
    case Resolved => 3
  }

  function IssueTypeName(t: IssueType): string {
    match t
    case StreetLight => "street_light"
    case Pothole => "pothole"
    case Garbage => "garbage"
    case Drainage => "drainage"
    case Others => "others"
  }

  function RoleName(r: UserRole): string {
    match r
    case Citizen => "citizen"
    case Admin => "admin"
    case FieldOfficer => "field_officer"
  }

  /** `Constants.public.Enums`. */
  const IssueStatusValues: seq<string> := ["registered", "assigned", "in_progress", "resolved"]
  const IssueTypeValues: seq<string> := ["street_light", "pothole", "garbage", "drainage", "others"]
  const UserRoleValues: seq<string> := ["citizen", "admin", "field_officer"]

  predicate NoDuplicates(s: seq<string>) {
    forall i, j :: 0 <= i < j < |s| ==> s[i] != s[j]
  }

  /** The member of `issue_status` a string names, if any. */
  function ParseStatus(name: string): (r: Option<IssueStatus>)
    ensures r.Some? <==> name in IssueStatusValues
    ensures r.Some? ==> StatusName(r.value) == name
  {
    if name == "registered" then Some(Registered)
    else if name == "assigned" then Some(Assigned)
    else if name == "in_progress" then Some(InProgress)
    else if name == "resolved" then Some(Resolved)
    else None
  }

  /** The `issue_status` array lists the four members once each, in the
      order of the type's declaration. */
  lemma StatusConstantsExact()
    ensures |IssueStatusValues| == 4 && NoDuplicates(IssueStatusValues)
    ensures forall s :: StatusIndex(s) < 4 && IssueStatusValues[StatusIndex(s)] == StatusName(s)
    ensures forall name :: name in IssueStatusValues <==> exists s :: StatusName(s) == name
  {
    forall name | name in IssueStatusValues ensures exists s :: StatusName(s) == name {
      assert StatusName(ParseStatus(name).value) == name;
    }
  }

  /** The `issue_type` array lists the five members once each. */
  lemma IssueTypeConstantsExact()
    ensures |IssueTypeValues| == 5 && NoDuplicates(IssueTypeValues)
    ensures forall name :: name in IssueTypeValues <==> exists t :: IssueTypeName(t) == name
  {
    forall name | name in IssueTypeValues ensures exists t :: IssueTypeName(t) == name {
      if name == "street_light" { assert IssueTypeName(StreetLight) == name; }
      else if name == "pothole" { assert IssueTypeName(Pothole) == name; }
      else if name == "garbage" { assert IssueTypeName(Garbage) == name; }
      else if name == "drainage" { assert IssueTypeName(Drainage) == name; }
      else { assert IssueTypeName(Others) == name; }
    }
  }

  /** The `user_role` array lists the three members once each. */
  lemma UserRoleConstantsExact()
    ensures |UserRoleValues| == 3 && NoDuplicates(UserRoleValues)
    ensures forall name :: name in UserRoleValues <==> exists r :: RoleName(r) == name
  {
    forall name | name in UserRoleValues ensures exists r :: RoleName(r) == name {
      if name == "citizen" { assert RoleName(Citizen) == name; }
      else if name == "admin" { assert RoleName(Admin) == name; }
      else { assert RoleName(FieldOfficer) == name; }
    }
  }

  // ---------------------------------------------------------------- shapes

  datatype ColType = TText | TNumber | TTextList | TStatus | TIssueType
  datatype Value = Text(s: string) | Number(x: real) | TextList(items: seq<string>) | Null
  datatype Field = Field(ty: ColType, optional: bool, nullable: bool)
  type Shape = map<string, Field>
  type Record = map<string, Value>

  /** `T`, `T | null`, `col?: T` and `col?: T | null`. */
  function Req(t: ColType): Field { Field(t, false, false) }
  function ReqNull(t: ColType): Field { Field(t, false, true) }
  function Opt(t: ColType): Field { Field(t, true, false) }
  function OptNull(t: ColType): Field { Field(t, true, true) }

  /** A non-null value of a column type; an enumeration column holds one of
      the enumeration's string literals. */
  predicate HasType(v: Value, t: ColType) {
    match t
    case TText => v.Text?
    case TNumber => v.Number?
    case TTextList => v.TextList?
    case TStatus => v.Text? && v.s in IssueStatusValues
    case TIssueType => v.Text? && v.s in IssueTypeValues
  }

  predicate Accepts(f: Field, v: Value) {
    if v.Null? then f.nullable else HasType(v, f.ty)
  }

  /** Every key of `r` is a column of `sh` holding a value of its type. */
  predicate WellTyped(r: Record, sh: Shape) {
    forall k :: k in r ==> k in sh && Accepts(sh[k], r[k])
  }

  /** `r` is a value of the object type `sh`. */
  predicate Conforms(r: Record, sh: Shape) {
    && WellTyped(r, sh)
    && forall k :: k in sh && !sh[k].optional ==> k in r
  }

  function RequiredColumns(sh: Shape): set<string> {
    set k | k in sh && !sh[k].optional
  }

  function NonNullColumns(sh: Shape): set<string> {
    set k | k in sh && !sh[k].nullable
  }

  /** A well-typed record conforms exactly when it has every required column. */
  lemma ConformsIffRequiredPresent(r: Record, sh: Shape)
    requires WellTyped(r, sh)
    ensures Conforms(r, sh) <==> RequiredColumns(sh) <= r.Keys
  {
    if RequiredColumns(sh) <= r.Keys {
      forall k | k in sh && !sh[k].optional ensures k in r {
        assert k in RequiredColumns(sh);
      }
    }
  }

  /** `ins` is an Insert shape for rows of shape `row`: the same columns with
      the same types and nullability. */
  predicate IsInsertOf(ins: Shape, row: Shape) {
    && ins.Keys == row.Keys
    && forall k :: k in ins ==> ins[k].ty == row[k].ty && ins[k].nullable == row[k].nullable
  }

  /** `upd` is the Update shape of `row`: every column, every one optional. */
  predicate IsUpdateOf(upd: Shape, row: Shape) {
    && upd.Keys == row.Keys
    && forall k :: k in upd ==> upd[k] == row[k].(optional := true)
  }

  /** Applying an update object to a row: the columns it names are replaced. */
  function ApplyUpdate(row: Record, upd: Record): (r: Record)
    ensures r.Keys == row.Keys + upd.Keys
    ensures forall k :: k in upd ==> r[k] == upd[k]
    ensures forall k :: k in row && k !in upd ==> r[k] == row[k]
  {
    row + upd
  }

  /** An Update shape accepts the empty object, and applying it changes
      nothing. */
  lemma EmptyUpdate(upd: Shape, row: Shape, current: Record)
    requires IsUpdateOf(upd, row)
    ensures Conforms(map[], upd)
    ensures ApplyUpdate(current, map[]) == current
  {
  }

  /** A row stays a row after any update of its Update shape. */
  lemma UpdateKeepsRow(current: Record, upd: Record, rowShape: Shape, updShape: Shape)
    requires IsUpdateOf(updShape, rowShape)
    requires Conforms(current, rowShape) && Conforms(upd, updShape)
    ensures Conforms(ApplyUpdate(current, upd), rowShape)
  {
    var r := ApplyUpdate(current, upd);
    forall k | k in r ensures k in rowShape && Accepts(rowShape[k], r[k]) {
      if k in upd {
        assert Accepts(updShape[k], upd[k]);
        assert updShape[k].ty == rowShape[k].ty && updShape[k].nullable == rowShape[k].nullable;
      }
    }
  }

  // ------------------------------------------------------------ complaints

  const ComplaintsRow: Shape := map[
    "assigned_at" := ReqNull(TText), "assigned_to" := ReqNull(TText),
    "city_id" := ReqNull(TText), "created_at" := ReqNull(TText),
    "description" := Req(TText), "id" := Req(TText),
    "issue_type" := Req(TIssueType), "latitude" := ReqNull(TNumber),
    "longitude" := ReqNull(TNumber), "media_urls" := ReqNull(TTextList),
    "priority" := ReqNull(TNumber), "resolved_at" := ReqNull(TText),
    "state_id" := ReqNull(TText), "status" := ReqNull(TStatus),
    "title" := Req(TText), "updated_at" := ReqNull(TText),
    "user_id" := ReqNull(TText)]

  const ComplaintsInsert: Shape := map[
    "assigned_at" := OptNull(TText), "assigned_to" := OptNull(TText),
    "city_id" := OptNull(TText), "created_at" := OptNull(TText),
    "description" := Req(TText), "id" := Opt(TText),
    "issue_type" := Req(TIssueType), "latitude" := OptNull(TNumber),
    "longitude" := OptNull(TNumber), "media_urls" := OptNull(TTextList),
    "priority" := OptNull(TNumber), "resolved_at" := OptNull(TText),
    "state_id" := OptNull(TText), "status" := OptNull(TStatus),
    "title" := Req(TText), "updated_at" := OptNull(TText),
    "user_id" := OptNull(TText)]

  const ComplaintsUpdate: Shape := map[
    "assigned_at" := OptNull(TText), "assigned_to" := OptNull(TText),
    "city_id" := OptNull(TText), "created_at" := OptNull(TText),
    "description" := Opt(TText), "id" := Opt(TText),
    "issue_type" := Opt(TIssueType), "latitude" := OptNull(TNumber),
    "longitude" := OptNull(TNumber), "media_urls" := OptNull(TTextList),
    "priority" := OptNull(TNumber), "resolved_at" := OptNull(TText),
    "state_id" := OptNull(TText), "status" := OptNull(TStatus),
    "title" := Opt(TText), "updated_at" := OptNull(TText),
    "user_id" := OptNull(TText)]

  /** A `complaints` row always has a description, id, issue type and title;
      every other column, `status` included, may be null. */
  lemma ComplaintsRowNullability()
    ensures NonNullColumns(ComplaintsRow) == {"description", "id", "issue_type", "title"}
    ensures RequiredColumns(ComplaintsRow) == ComplaintsRow.Keys
    ensures "status" in ComplaintsRow && ComplaintsRow["status"].nullable
  {
  }

  /** A well-typed `complaints` Insert is well-formed exactly when it has
      `title`, `description` and `issue_type`. */
  lemma ComplaintsInsertRequired(r: Record)
    requires WellTyped(r, ComplaintsInsert)
    ensures RequiredColumns(ComplaintsInsert) == {"description", "issue_type", "title"}
    ensures Conforms(r, ComplaintsInsert) <==> "title" in r && "description" in r && "issue_type" in r
  {
    ConformsIffRequiredPresent(r, ComplaintsInsert);
  }

  /** The `complaints` Insert shape declares the Row's seventeen columns with
      the same types and nullability. */
  lemma ComplaintsInsertMatchesRow()
    ensures IsInsertOf(ComplaintsInsert, ComplaintsRow)
  {
    assert ComplaintsInsert.Keys == ComplaintsRow.Keys;
    forall k | k in ComplaintsInsert
      ensures ComplaintsInsert[k].ty == ComplaintsRow[k].ty
      ensures ComplaintsInsert[k].nullable == ComplaintsRow[k].nullable
    {
      assert k in {"assigned_at", "assigned_to", "city_id", "created_at", "description", "id",
                   "issue_type", "latitude", "longitude", "media_urls", "priority", "resolved_at",
                   "state_id", "status", "title", "updated_at", "user_id"};
    }
  }

  /** The `complaints` Update shape is the Row shape with every column made
      optional. */
  lemma ComplaintsUpdateMatchesRow()
    ensures IsUpdateOf(ComplaintsUpdate, ComplaintsRow)
  {
    assert ComplaintsUpdate.Keys == ComplaintsRow.Keys;
    forall k | k in ComplaintsUpdate ensures ComplaintsUpdate[k] == ComplaintsRow[k].(optional := true) {
      assert k in {"assigned_at", "assigned_to", "city_id", "created_at", "description", "id",
                   "issue_type", "latitude", "longitude", "media_urls", "priority", "resolved_at",
                   "state_id", "status", "title", "updated_at", "user_id"};
    }
  }

  /** The status of a `complaints` row: null, or one of the four members. */
  function RowStatus(row: Record): (r: Option<IssueStatus>)
    requires Conforms(row, ComplaintsRow)
    ensures "status" in row
    ensures r.None? <==> row["status"] == Null
    ensures r.Some? ==> row["status"] == Text(StatusName(r.value))
  {
    assert "status" in ComplaintsRow && !ComplaintsRow["status"].optional;
    var v := row["status"];
    assert Accepts(ComplaintsRow["status"], v);
    if v.Null? then None else ParseStatus(v.s)
  }

  // ----------------------------------------------------- complaint_updates

  const ComplaintUpdatesRow: Shape := map[
    "complaint_id" := ReqNull(TText), "created_at" := ReqNull(TText),
    "id" := Req(TText), "media_urls" := ReqNull(TTextList),
    "new_status" := Req(TStatus), "notes" := ReqNull(TText),
    "old_status" := ReqNull(TStatus), "updated_by" := ReqNull(TText)]

  const ComplaintUpdatesInsert: Shape := map[
    "complaint_id" := OptNull(TText), "created_at" := OptNull(TText),
    "id" := Opt(TText), "media_urls" := OptNull(TTextList),
    "new_status" := Req(TStatus), "notes" := OptNull(TText),
    "old_status" := OptNull(TStatus), "updated_by" := OptNull(TText)]

  const ComplaintUpdatesUpdate: Shape := map[
    "complaint_id" := OptNull(TText), "created_at" := OptNull(TText),
    "id" := Opt(TText), "media_urls" := OptNull(TTextList),
    "new_status" := Opt(TStatus), "notes" := OptNull(TText),
    "old_status" := OptNull(TStatus), "updated_by" := OptNull(TText)]

  /** A well-typed `complaint_updates` Insert is well-formed exactly when it
      has `new_status`; `old_status` may be left out or be null. */
  lemma ComplaintUpdatesInsertRequired(r: Record)
    requires WellTyped(r, ComplaintUpdatesInsert)
    ensures RequiredColumns(ComplaintUpdatesInsert) == {"new_status"}
    ensures Conforms(r, ComplaintUpdatesInsert) <==> "new_status" in r
    ensures ComplaintUpdatesInsert["old_status"].optional && ComplaintUpdatesInsert["old_status"].nullable
  {
    ConformsIffRequiredPresent(r, ComplaintUpdatesInsert);
  }

  /** The three `complaint_updates` shapes declare the same eight columns
      with the same types and nullability; the Update shape makes all of them
      optional. */
  lemma ComplaintUpdatesShapesAgree()
    ensures IsInsertOf(ComplaintUpdatesInsert, ComplaintUpdatesRow)
    ensures IsUpdateOf(ComplaintUpdatesUpdate, ComplaintUpdatesRow)
  {
    var columns := {"complaint_id", "created_at", "id", "media_urls", "new_status", "notes",
                    "old_status", "updated_by"};
    assert ComplaintUpdatesRow.Keys == columns;
    forall k | k in ComplaintUpdatesInsert
      ensures ComplaintUpdatesInsert[k].ty == ComplaintUpdatesRow[k].ty
      ensures ComplaintUpdatesInsert[k].nullable == ComplaintUpdatesRow[k].nullable
    {
      assert k in columns;
    }
    forall k | k in ComplaintUpdatesUpdate
      ensures ComplaintUpdatesUpdate[k] == ComplaintUpdatesRow[k].(optional := true)
    {
      assert k in columns;
    }
  }
}
