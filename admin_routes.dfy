/** backend/routes/adminRoutes.js: the user export. The query's role,
    course, department and graduation year become a Mongo filter (the
    strings as case-insensitive regular expressions over escaped text), and
    every matching user becomes one row, as JSON or as a spreadsheet. */
module AdminRoutes {
  import opened Common
  import opened Documents

  // ---------------------------------------------------------------------
  // Escaping and the regular expressions built from escaped text

  /** The characters `escapeRegex` escapes. */
  const Specials: seq<char> := ['.', '*', '+', '?', '^', '$', '{', '}', '(', ')', '|', '[', ']', '\\']

  /** `escapeRegex`: a backslash before every special character. */
  function EscapeRegex(s: string): (r: string)
    ensures |r| >= |s|
    ensures s != [] ==> r != [] && r[0] !in "^$"
  {
    if s == [] then []
    else (if s[0] in Specials then ['\\', s[0]] else [s[0]]) + EscapeRegex(s[1..])
  }

  /** The text a regular expression source matches literally, when it is
      made only of plain characters and escaped special characters. */
  function LiteralOf(p: string): Option<string> {
    if p == [] then Some([])
    else if p[0] == '\\' then
      if |p| >= 2 && p[1] in Specials then
        var rest := LiteralOf(p[2..]);
        if rest.Some? then Some([p[1]] + rest.value) else None
      else None
    else if p[0] in Specials then None
    else
      var rest := LiteralOf(p[1..]);
      if rest.Some? then Some([p[0]] + rest.value) else None
  }

  /** Escaping is undone by reading the result as a regular expression: the
      pattern built from any text matches that text literally. */
  lemma {:induction false} LiteralOfEscape(s: string)
    ensures LiteralOf(EscapeRegex(s)) == Some(s)
  {
    if s != [] {
      LiteralOfEscape(s[1..]);
      var rest := EscapeRegex(s[1..]);
      if s[0] in Specials {
        var e := ['\\', s[0]] + rest;
        assert e[1] == s[0] && e[2..] == rest;
      } else {
        var e := [s[0]] + rest;
        assert e[1..] == rest;
      }
      assert s == [s[0]] + s[1..];
    }
  }

  /** Text without special characters is left as it is. */
  lemma {:induction false} EscapeUnchanged(s: string)
    requires forall i :: 0 <= i < |s| ==> s[i] !in Specials
    ensures EscapeRegex(s) == s
  {
    if s != [] {
      EscapeUnchanged(s[1..]);
      assert s == [s[0]] + s[1..];
    }
  }

  /** Every special character comes out preceded by a backslash. */
  lemma {:induction false} EscapeSpecial(s: string, c: char)
    requires c in Specials
    ensures EscapeRegex(s + [c]) == EscapeRegex(s) + ['\\', c]
  {
    if s == [] {
      assert [c][1..] == [];
    } else {
      EscapeSpecial(s[1..], c);
      assert (s + [c])[0] == s[0] && (s + [c])[1..] == s[1..] + [c];
    }
  }

  /** `text` has `lit` starting at `i`, ignoring ASCII case. */
  predicate MatchesAt(text: string, i: nat, lit: string) {
    i + |lit| <= |text| && forall k :: 0 <= k < |lit| ==> SameLetter(text[i + k], lit[k])
  }

  /** `text` contains `lit`, ignoring ASCII case. */
  predicate ContainsCI(text: string, lit: string) {
    exists i :: 0 <= i <= |text| && MatchesAt(text, i, lit)
  }

  /** `text` is `lit`, ignoring ASCII case. */
  predicate EqualsCI(text: string, lit: string) {
    |text| == |lit| && MatchesAt(text, 0, lit)
  }

  /** `new RegExp(source, "i").test(text)` for the two shapes of source
      the routes build: a literal between `^` and `$` must be the whole
      text, a bare literal may occur anywhere. Other sources are not
      modelled and match nothing. */
  predicate Test(source: string, text: string) {
    if |source| >= 2 && source[0] == '^' && source[|source| - 1] == '$' && LiteralOf(source[1..|source| - 1]).Some? then
      EqualsCI(text, LiteralOf(source[1..|source| - 1]).value)
    else if LiteralOf(source).Some? then
      ContainsCI(text, LiteralOf(source).value)
    else false
  }

  /** The role pattern `^<escaped>$` matches exactly the texts equal to the
      query, ignoring case, whatever special characters it holds. */
  lemma WholePattern(s: string, text: string)
    ensures Test("^" + EscapeRegex(s) + "$", text) <==> EqualsCI(text, s)
  {
    var src := "^" + EscapeRegex(s) + "$";
    assert src[1..|src| - 1] == EscapeRegex(s);
    LiteralOfEscape(s);
  }

  /** The course and department pattern matches exactly the texts that
      contain the query, ignoring case. */
  lemma SubstringPattern(s: string, text: string)
    requires s != []
    ensures Test(EscapeRegex(s), text) <==> ContainsCI(text, s)
  {
    LiteralOfEscape(s);
  }

  // ---------------------------------------------------------------------
  // The filter

  /** The query string; an absent or empty parameter adds nothing. */
  datatype Query = Query(role: Option<string>, course: Option<string>, department: Option<string>, graduationYear: Option<string>)

  /** The Mongo filter: the regular expression sources, and the year as sent. */
  datatype MongoFilter = MongoFilter(role: Option<string>, course: Option<string>, department: Option<string>, graduationYear: Option<string>)

  function RoleName(r: Role): string {
    match r
    case Student => "student"
    case Alumni => "alumni"
    case Admin => "admin"
  }

  /** Whether a user matches a filter, as `User.find` evaluates it: every
      field present must match, and a missing user field never matches. */
  predicate Matches(f: MongoFilter, u: User) {
    && (f.role.Some? ==> Test(f.role.value, RoleName(u.role)))
    && (f.course.Some? ==> u.course.Some? && Test(f.course.value, u.course.value))
    && (f.department.Some? ==> u.department.Some? && Test(f.department.value, u.department.value))
    && (f.graduationYear.Some? ==>
          u.graduationYear.Some? && DecimalValue(f.graduationYear.value) == Some(u.graduationYear.value))
  }

  /** The users a query asks for, stated without regular expressions: the
      role equal ignoring case, course and department containing the text
      ignoring case, the same graduation year. */
  predicate Wanted(q: Query, u: User) {
    && (Truthy(q.role) ==> EqualsCI(RoleName(u.role), q.role.value))
    && (Truthy(q.course) ==> u.course.Some? && ContainsCI(u.course.value, q.course.value))
    && (Truthy(q.department) ==> u.department.Some? && ContainsCI(u.department.value, q.department.value))
    && (Truthy(q.graduationYear) ==>
          u.graduationYear.Some? && DecimalValue(q.graduationYear.value) == Some(u.graduationYear.value))
  }

  /** The filter object, one field per non-empty parameter. */
  method BuildFilter(q: Query) returns (f: MongoFilter)
    ensures f.role.Some? <==> Truthy(q.role)
    ensures f.course.Some? <==> Truthy(q.course)
    ensures f.department.Some? <==> Truthy(q.department)
    ensures f.graduationYear.Some? <==> Truthy(q.graduationYear)
    ensures forall u :: Matches(f, u) <==> Wanted(q, u)
  {
    f := MongoFilter(None, None, None, None);
    if Truthy(q.role) {
      f := f.(role := Some("^" + EscapeRegex(q.role.value) + "$"));
    }
    if Truthy(q.course) {
      f := f.(course := Some(EscapeRegex(q.course.value)));
    }
    if Truthy(q.department) {
      f := f.(department := Some(EscapeRegex(q.department.value)));
    }
    if Truthy(q.graduationYear) {
      f := f.(graduationYear := q.graduationYear);
    }
    forall u: User ensures Matches(f, u) <==> Wanted(q, u) {
      if Truthy(q.role) {
        WholePattern(q.role.value, RoleName(u.role));
      }
      if Truthy(q.course) && u.course.Some? {
        SubstringPattern(q.course.value, u.course.value);
      }
      if Truthy(q.department) && u.department.Some? {
        SubstringPattern(q.department.value, u.department.value);
      }
    }
  }

  /** Whether the year parameter fails the cast to a number. */
  predicate BadYear(q: Query) {
    Truthy(q.graduationYear) && DecimalValue(q.graduationYear.value).None?
  }

  // ---------------------------------------------------------------------
  // Rows

  datatype YearCell = Year(year: int) | Dash

  /** One exported row. */
  datatype Row = Row(sNo: nat, id: Id, name: string, email: string, role: string,
                     course: string, department: string, graduationYear: YearCell)

  /** The row of the user at position `index` of the result. */
  function RowOf(index: nat, id: Id, u: User): (r: Row)
    ensures r.sNo == index + 1 && r.id == id && r.email == u.email && r.role == RoleName(u.role)
    ensures r.name == Trim(OrElse(u.firstname, "") + " " + OrElse(u.lastname, ""))
    ensures r.course == OrElse(u.course, "-") && r.department == OrElse(u.department, "-")
    ensures r.graduationYear == (if u.graduationYear.Some? && u.graduationYear.value != 0 then Year(u.graduationYear.value) else Dash)
  {
    Row(index + 1, id, Trim(OrElse(u.firstname, "") + " " + OrElse(u.lastname, "")), u.email, RoleName(u.role),
        OrElse(u.course, "-"), OrElse(u.department, "-"),
        if u.graduationYear.Some? && u.graduationYear.value != 0 then Year(u.graduationYear.value) else Dash)
  }

  /** The name cell has no surrounding white space, and of names already
      trimmed it is "first last", or the one that is present. */
  lemma RowName(index: nat, id: Id, u: User)
    ensures Trimmed(RowOf(index, id, u).name)
    ensures var first := OrElse(u.firstname, "");
            var last := OrElse(u.lastname, "");
            var name := RowOf(index, id, u).name;
            Trimmed(first) && Trimmed(last) ==>
              && (first != "" && last != "" ==> name == first + " " + last)
              && (first != "" && last == "" ==> name == first)
              && (first == "" && last != "" ==> name == last)
              && (first == "" && last == "" ==> name == "")
  {
    var first := OrElse(u.firstname, "");
    var last := OrElse(u.lastname, "");
    TrimIsTrimmed(first + " " + last);
    if Trimmed(first) && Trimmed(last) {
      JoinTrimmed(first, last);
    }
  }

  /** `users.map((u, index) => ...)`: one row per selected user, in order. */
  function ExportRows(users: map<Id, User>, ids: seq<Id>): (r: seq<Row>)
    requires forall j :: 0 <= j < |ids| ==> ids[j] in users
    ensures |r| == |ids|
    ensures forall j :: 0 <= j < |r| ==> r[j] == RowOf(j, ids[j], users[ids[j]])
  {
    seq(|ids|, j requires 0 <= j < |ids| => RowOf(j, ids[j], users[ids[j]]))
  }

  /** The serial numbers run 1, 2, ... without gaps, and each row carries
      the id it was made from. */
  lemma {:induction false} SerialNumbers(users: map<Id, User>, ids: seq<Id>, j: nat)
    requires forall j :: 0 <= j < |ids| ==> ids[j] in users
    requires j < |ids|
    ensures ExportRows(users, ids)[j].sNo == j + 1
    ensures ExportRows(users, ids)[j].id == ids[j]
    ensures j + 1 < |ids| ==> ExportRows(users, ids)[j + 1].sNo == ExportRows(users, ids)[j].sNo + 1
  {
    var r := ExportRows(users, ids);
    assert r[j] == RowOf(j, ids[j], users[ids[j]]);
  }

  /** The users a query selects, in the order `find` returns them. */
  function WantedBy(users: map<Id, User>, q: Query): Id -> bool {
    u => u in users && Wanted(q, users[u])
  }

  /** The users a query selects, in the order `find` returns them: each
      wanted user once. */
  function Selection(users: map<Id, User>, order: seq<Id>, q: Query): (ids: seq<Id>)
    requires NoDups(order)
    ensures NoDups(ids)
    ensures forall u :: u in ids <==> u in users && u in order && Wanted(q, users[u])
    ensures forall j :: 0 <= j < |ids| ==> ids[j] in users
  {
    FilterMembers(order, WantedBy(users, q));
    FilterNoDups(order, WantedBy(users, q));
    Filter(order, WantedBy(users, q))
  }

  /** The users the filter selects, in order. */
  method Select(st: Store, f: MongoFilter, ghost q: Query) returns (ids: seq<Id>)
    requires st.Valid()
    requires forall u :: Matches(f, u) <==> Wanted(q, u)
    ensures ids == Selection(st.users, st.userOrder, q)
  {
    var users := st.users;
    var keep := (u: Id) => u in users && Matches(f, users[u]);
    FilterSame(st.userOrder, keep, WantedBy(users, q));
    ids := Filter(st.userOrder, keep);
  }

  /** `GET /export-data`. No role is checked: any signed-in caller gets
      the rows. A year that fails the cast makes `find` throw (500). */
  method ExportData(st: Store, p: Principal, q: Query) returns (r: Response<seq<Row>>)
    requires st.Valid()
    ensures BadYear(q) ==> r == Err(500, "Error fetching data")
    ensures !BadYear(q) ==> r.Ok? && r.status == 200
    ensures r.Ok? ==> r.value == ExportRows(st.users, Selection(st.users, st.userOrder, q))
  {
    var f := BuildFilter(q);
    if BadYear(q) {
      return Err(500, "Error fetching data");
    }
    var ids := Select(st, f, q);
    r := Ok(200, ExportRows(st.users, ids));
  }

  /** The spreadsheet: its header row, then one row per user. */
  datatype Sheet = Sheet(name: string, columns: seq<string>, rows: seq<Row>, fileName: string)

  const Columns: seq<string> := ["S. No", "Name", "Email", "Role", "Course", "Department", "Graduation Year"]

  /** `users.forEach((u, index) => sheet.addRow(...))`. */
  method AddRows(users: map<Id, User>, ids: seq<Id>) returns (rows: seq<Row>)
    requires forall j :: 0 <= j < |ids| ==> ids[j] in users
    ensures rows == ExportRows(users, ids)
  {
    rows := [];
    var i := 0;
    while i < |ids|
      invariant 0 <= i <= |ids|
      invariant rows == ExportRows(users, ids[..i])
    {
      assert ids[..i + 1][..i] == ids[..i];
      rows := rows + [RowOf(i, ids[i], users[ids[i]])];
      i := i + 1;
    }
    assert ids[..i] == ids;
  }

  /** `GET /export-excel`: the same filter and rows as `/export-data`,
      added to the sheet one at a time. */
  method ExportExcel(st: Store, p: Principal, q: Query) returns (r: Response<Sheet>)
    requires st.Valid()
    ensures BadYear(q) ==> r == Err(500, "Error exporting data")
    ensures !BadYear(q) ==> r.Ok? && r.status == 200
    ensures r.Ok? ==> r.value.name == "Users Data" && r.value.columns == Columns && r.value.fileName == "exported_data.xlsx"
    ensures r.Ok? ==> r.value.rows == ExportRows(st.users, Selection(st.users, st.userOrder, q))
  {
    var f := BuildFilter(q);
    if BadYear(q) {
      return Err(500, "Error exporting data");
    }
    var ids := Select(st, f, q);
    var rows := AddRows(st.users, ids);
    r := Ok(200, Sheet("Users Data", Columns, rows, "exported_data.xlsx"));
  }
}
