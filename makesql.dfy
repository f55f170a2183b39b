/** `make_sql_from_form`: from the search form to the SELECT statement, the
    values for its `?` placeholders, the columns to show and the two display
    flags. */
module MakeSql {
  import opened Base
  import opened Builtins
  import opened Column
  import opened Utils

  // ----- the submitted form -----

  /** The submitted form with blank values kept: every field name sent, with
      the one or more values sent under it, in order. */
  type Form = m: map<string, seq<string>> | forall name :: name in m ==> |m[name]| > 0
    witness map[]

  /** What `form.getvalue(name)` returns: `None`, one string, or a list of them. */
  datatype FieldValue = Absent | One(text: string) | Many(items: seq<string>)

  /** `form.getlist(name)`. */
  function GetList(form: Form, name: string): (r: seq<string>)
    ensures r == [] <==> name !in form
  {
    if name in form then form[name] else []
  }

  /** `form.getvalue(name)`. */
  function GetValue(form: Form, name: string): (r: FieldValue)
    ensures r.Absent? <==> name !in form
    ensures r.One? <==> name in form && |form[name]| == 1
    ensures r.One? ==> r.text == form[name][0]
  {
    if name !in form then Absent
    else if |form[name]| == 1 then One(form[name][0])
    else Many(form[name])
  }

  /** The truth value of what `getvalue` returns: a non-empty string, or a list. */
  predicate Truthy(v: FieldValue)
  {
    (v.One? && v.text != "") || v.Many?
  }

  /** `bool(int(form.getvalue("format")))`: a missing or repeated field is
      a `TypeError` in `int()`, a non-numeric one a `ValueError`. */
  function FormatFlag(form: Form): (r: Result<bool>)
    ensures r.Ok? <==> GetValue(form, "format").One? && ParseInt(form["format"][0]).Some?
    ensures r.Ok? ==> (r.value <==> ParseInt(form["format"][0]).value != 0)
    ensures !GetValue(form, "format").One? ==> r == Err(TypeError)
  {
    match GetValue(form, "format")
    case One(t) =>
      (match ParseInt(t)
       case Some(n) => Ok(n != 0)
       case None => Err(ValueError))
    case _ => Err(TypeError)
  }

  /** `format=0` asks for counts, `format=1` for rates. */
  lemma FormatFlagExamples()
    ensures FormatFlag(map["format" := ["0"]]) == Ok(false)
    ensures FormatFlag(map["format" := ["1"]]) == Ok(true)
  {
    assert ParseInt("0") == Some(0) by { assert AllDigits("0"); }
    assert ParseInt("1") == Some(1) by { assert AllDigits("1"); }
  }

  /** A missing format field and a non-numeric one raise different errors. */
  lemma FormatFlagErrors()
    ensures FormatFlag(map["format" := ["%"]]) == Err(ValueError)
    ensures FormatFlag(map[]) == Err(TypeError)
  {
    assert !IsDigit('%');
  }

  // ----- the SELECT clause -----

  /** `[name for name in display if form.getvalue(name)]`. */
  function SelectedKeys(form: Form, display: seq<string>): (keys: seq<string>)
    ensures forall k :: k in keys <==> k in display && Truthy(GetValue(form, k))
    ensures Distinct(display) ==> Distinct(keys)
  {
    if |display| == 0 then []
    else
      var init := display[..|display| - 1];
      var k := display[|display| - 1];
      var rest := SelectedKeys(form, init);
      assert display == init + [k];
      assert Distinct(display) ==> Distinct(init);
      assert Distinct(display) ==> k !in init;
      if Truthy(GetValue(form, k)) then
        assert Distinct(display) ==> Distinct(rest + [k]) by {
          if Distinct(display) { DistinctConcat(rest, [k]); }
        }
        rest + [k]
      else rest
  }

  /** The selection keeps the order of `display`: a field chosen before
      another in the list is listed before it. */
  lemma {:induction false} SelectionKeepsOrder(form: Form, display: seq<string>, i: nat, j: nat)
    requires Distinct(display)
    requires i < j < |display|
    requires Truthy(GetValue(form, display[i])) && Truthy(GetValue(form, display[j]))
    ensures IndexOf(SelectedKeys(form, display), display[i]).value
          < IndexOf(SelectedKeys(form, display), display[j]).value
  {
    var init := display[..|display| - 1];
    var keys := SelectedKeys(form, display);
    assert display == init + [display[|display| - 1]];
    if j < |display| - 1 {
      SelectionKeepsOrder(form, init, i, j);
      assert keys == SelectedKeys(form, init) || keys == SelectedKeys(form, init) + [display[|display| - 1]];
      IndexOfPrefix(SelectedKeys(form, init), keys, display[i]);
      IndexOfPrefix(SelectedKeys(form, init), keys, display[j]);
    } else {
      var rest := SelectedKeys(form, init);
      assert keys == rest + [display[j]];
      assert display[j] !in rest;
      IndexOfPrefix(rest, keys, display[i]);
      assert IndexOf(keys, display[j]).value == |rest|;
    }
  }

  /** Extending a list does not move an element it already holds. */
  lemma IndexOfPrefix(s: seq<string>, t: seq<string>, x: string)
    requires s <= t && x in s
    ensures IndexOf(t, x) == IndexOf(s, x)
  {
    var k := IndexOf(s, x).value;
    assert t[k] == x;
    assert t[..k] == s[..k];
  }

  /** The `for col in required_columns: select_keys.insert(0, col)` loop,
      on its first `|required|` iterations. */
  function AddRequired(keys: seq<string>, required: seq<string>): (r: seq<string>)
    ensures forall c :: c in r <==> c in keys || c in required
  {
    if |required| == 0 then keys
    else
      var k := AddRequired(keys, required[..|required| - 1]);
      var col := required[|required| - 1];
      assert required == required[..|required| - 1] + [col];
      if col in k then k else [col] + k
  }

  /** The required columns missing from `keys`, the last of them first. */
  function Missing(keys: seq<string>, required: seq<string>): (r: seq<string>)
    ensures forall c :: c in r <==> c in required && c !in keys
  {
    if |required| == 0 then []
    else
      var col := required[|required| - 1];
      assert required == required[..|required| - 1] + [col];
      (if col in keys then [] else [col]) + Missing(keys, required[..|required| - 1])
  }

  /** Inserting the required columns at the front puts the missing ones,
      in reverse order, before the selection, which keeps its own order. */
  lemma {:induction false} AddRequiredPrepends(keys: seq<string>, required: seq<string>)
    requires Distinct(required)
    ensures AddRequired(keys, required) == Missing(keys, required) + keys
    ensures Distinct(keys) ==> Distinct(AddRequired(keys, required))
  {
    if |required| > 0 {
      var init := required[..|required| - 1];
      var col := required[|required| - 1];
      assert required == init + [col];
      assert Distinct(init);
      assert col !in init;
      AddRequiredPrepends(keys, init);
      var m := Missing(keys, init);
      assert col in AddRequired(keys, init) <==> col in keys;
      if col in keys {
        assert [] + m == m;
      } else {
        assert [col] + (m + keys) == ([col] + m) + keys;
      }
      if Distinct(keys) {
        MissingDistinct(keys, required);
        DistinctConcat(Missing(keys, required), keys);
      }
    }
  }

  lemma {:induction false} MissingDistinct(keys: seq<string>, required: seq<string>)
    requires Distinct(required)
    ensures Distinct(Missing(keys, required))
  {
    if |required| > 0 {
      var init := required[..|required| - 1];
      var col := required[|required| - 1];
      assert required == init + [col];
      assert Distinct(init);
      assert col !in init;
      MissingDistinct(keys, init);
      DistinctConcat(if col in keys then [] else [col], Missing(keys, init));
    }
  }

  /** The columns the query selects: every display column when nothing was
      chosen, otherwise the choice with the required columns put in front. */
  function ResolveKeys(selected: seq<string>): seq<string>
  {
    if |selected| == 0 then DisplayInfo else AddRequired(selected, RequiredColumns)
  }

  /** The text after `SELECT`. */
  function Columns(selected: seq<string>): string
  {
    if |selected| == 0 then "*" else Join(ResolveKeys(selected), ", ")
  }

  // ----- the WHERE clause -----

  /** One condition of the WHERE clause and the values of its placeholders. */
  datatype Condition = Condition(text: string, params: seq<string>)

  const LevelPrefix := "level IN ("
  const DifficultyPrefix := "difficulty_name IN ("
  const TitleCondition := "music_title LIKE ?"
  const ArtistCondition := "artist LIKE ?"

  /** `[f"{int(v)}" for v in value]`: every level rewritten in canonical
      decimal, a `ValueError` at the first that is not an integer. */
  function LevelValues(items: seq<string>): (r: Result<seq<string>>)
    ensures r.Ok? <==> forall i :: 0 <= i < |items| ==> ParseInt(items[i]).Some?
    ensures r.Err? ==> r.error == ValueError
    ensures r.Ok? ==> |r.value| == |items|
    ensures r.Ok? ==> forall i :: 0 <= i < |items| ==> r.value[i] == IntToString(ParseInt(items[i]).value)
    ensures r.Ok? ==> forall i :: 0 <= i < |items| ==> ParseInt(r.value[i]) == ParseInt(items[i])
  {
    if |items| == 0 then Ok([])
    else match ParseInt(items[0])
      case None => Err(ValueError)
      case Some(n) =>
        match LevelValues(items[1..])
        case Err(e) => Err(e)
        case Ok(rest) =>
          ParseIntToString(n);
          assert forall i :: 1 <= i < |items| ==> items[i] == items[1..][i - 1];
          Ok([IntToString(n)] + rest)
  }

  /** `Column.difficulties[int(v)]`: Python's index counts back from the end
      for -9..-1; a non-integer is a `ValueError`, any other index an `IndexError`. */
  function DifficultyName(v: string): (r: Result<string>)
    ensures ParseInt(v).None? <==> r == Err(ValueError)
    ensures r.Ok? <==> ParseInt(v).Some? && -9 <= ParseInt(v).value < 9
    ensures r.Ok? ==> r.value == Difficulties[ParseInt(v).value % 9]
    ensures r.Err? && ParseInt(v).Some? ==> r.error == IndexError
  {
    match ParseInt(v)
    case None => Err(ValueError)
    case Some(n) =>
      if 0 <= n < |Difficulties| then Ok(Difficulties[n])
      else if -|Difficulties| <= n < 0 then Ok(Difficulties[|Difficulties| + n])
      else Err(IndexError)
  }

  /** `[Column.difficulties[int(v)] for v in value]`, raising at the first bad item. */
  function DifficultyValues(items: seq<string>): (r: Result<seq<string>>)
    ensures r.Ok? <==> forall i :: 0 <= i < |items| ==> DifficultyName(items[i]).Ok?
    ensures r.Ok? ==> |r.value| == |items|
    ensures r.Ok? ==> forall i :: 0 <= i < |items| ==> r.value[i] == DifficultyName(items[i]).value
    ensures r.Err? ==> exists i :: FirstFailure(items, i, r.error)
  {
    if |items| == 0 then Ok([])
    else
      assert forall i :: 1 <= i < |items| ==> items[i] == items[1..][i - 1];
      match DifficultyName(items[0])
      case Err(e) =>
        assert FirstFailure(items, 0, e);
        Err(e)
      case Ok(d) =>
        match DifficultyValues(items[1..])
        case Err(e) =>
          var i :| FirstFailure(items[1..], i, e);
          assert FirstFailure(items, i + 1, e);
          Err(e)
        case Ok(rest) => Ok([d] + rest)
  }

  /** `items[i]` is the first item whose difficulty lookup fails, with `e`. */
  predicate FirstFailure(items: seq<string>, i: int, e: Exception)
  {
    0 <= i < |items| && DifficultyName(items[i]) == Err(e)
    && forall k :: 0 <= k < i ==> DifficultyName(items[k]).Ok?
  }

  /** The text of an `IN` condition over `n` placeholders. */
  function InCondition<T>(prefix: string, items: seq<T>): string
  {
    prefix + CreatePlaceholder(items) + ")"
  }

  lemma InConditionMarks<T>(prefix: string, items: seq<T>)
    requires '?' !in prefix
    ensures CountChar(InCondition(prefix, items), '?') == |items|
  {
    PlaceholderShape(items);
    CountCharAbsent(prefix, '?');
    CountCharAbsent(")", '?');
    CountCharConcat(prefix, CreatePlaceholder(items), '?');
    CountCharConcat(prefix + CreatePlaceholder(items), ")", '?');
  }

  /** The condition of a non-empty level filter. */
  function LevelCondition(value: seq<string>): (r: Result<Condition>)
    ensures r.Err? ==> r.error == ValueError
    ensures r.Ok? ==> CountChar(r.value.text, '?') == |r.value.params| && r.value.text != ""
  {
    match LevelValues(value)
    case Err(e) => Err(e)
    case Ok(levels) =>
      InConditionMarks(LevelPrefix, levels);
      Ok(Condition(InCondition(LevelPrefix, levels), levels))
  }

  /** The condition of a non-empty difficulty filter. */
  function DifficultyCondition(value: seq<string>): (r: Result<Condition>)
    ensures r.Ok? ==> CountChar(r.value.text, '?') == |r.value.params| && r.value.text != ""
  {
    match DifficultyValues(value)
    case Err(e) => Err(e)
    case Ok(names) =>
      InConditionMarks(DifficultyPrefix, names);
      Ok(Condition(InCondition(DifficultyPrefix, names), names))
  }

  /** One iteration of the filter loop: the condition a filter field adds,
      if any. A blank title or artist filter adds none. */
  function FilterCondition(form: Form, name: string): (r: Result<Option<Condition>>)
    ensures name !in form ==> r == Ok(None)
    ensures r.Err? ==> name == "level_filter" || name == "difficulty"
    ensures r.Ok? && r.value.Some? ==>
      CountChar(r.value.value.text, '?') == |r.value.value.params| && r.value.value.text != ""
  {
    var value := GetList(form, name);
    if value == [] then Ok(None)
    else if name == "level_filter" then
      match LevelCondition(value)
      case Err(e) => Err(e)
      case Ok(c) => Ok(Some(c))
    else if name == "difficulty" then
      match DifficultyCondition(value)
      case Err(e) => Err(e)
      case Ok(c) => Ok(Some(c))
    else if name == "music_title_filter" && value != [""] then
      TextConditionMarks(TitleCondition);
      Ok(Some(Condition(TitleCondition, ["%" + value[0] + "%"])))
    else if name == "artist_filter" && value != [""] then
      TextConditionMarks(ArtistCondition);
      Ok(Some(Condition(ArtistCondition, ["%" + value[0] + "%"])))
    else Ok(None)
  }

  lemma TextConditionMarks(text: string)
    requires text == TitleCondition || text == ArtistCondition
    ensures CountChar(text, '?') == 1
  {
    var head := text[..|text| - 1];
    assert text == head + "?";
    CountCharAbsent(head, '?');
    CountCharConcat(head, "?", '?');
  }

  /** The conditions the filter loop collects over `names`, in order. */
  function Conditions(form: Form, names: seq<string>): (r: Result<seq<Condition>>)
    ensures r.Ok? ==> forall i :: 0 <= i < |r.value| ==>
      CountChar(r.value[i].text, '?') == |r.value[i].params| && r.value[i].text != ""
  {
    if |names| == 0 then Ok([])
    else match Conditions(form, names[..|names| - 1])
      case Err(e) => Err(e)
      case Ok(cs) =>
        match FilterCondition(form, names[|names| - 1])
        case Err(e) => Err(e)
        case Ok(None) => Ok(cs)
        case Ok(Some(c)) => Ok(cs + [c])
  }

  /** The `conditions` list: the condition texts. */
  function Texts(cs: seq<Condition>): (r: seq<string>)
    ensures |r| == |cs| && forall i :: 0 <= i < |cs| ==> r[i] == cs[i].text
  {
    seq(|cs|, i requires 0 <= i < |cs| => cs[i].text)
  }

  /** The `values` list: every condition's values, in condition order. */
  function Params(cs: seq<Condition>): seq<string>
  {
    if |cs| == 0 then [] else Params(cs[..|cs| - 1]) + cs[|cs| - 1].params
  }

  lemma TextsParamsAppend(cs: seq<Condition>, c: Condition)
    ensures Texts(cs + [c]) == Texts(cs) + [c.text]
    ensures Params(cs + [c]) == Params(cs) + c.params
  {
    assert (cs + [c])[..|cs|] == cs;
  }

  /** The conditions hold as many placeholders as there are values. */
  lemma {:induction false} ConditionMarks(cs: seq<Condition>)
    requires forall i :: 0 <= i < |cs| ==> CountChar(cs[i].text, '?') == |cs[i].params|
    ensures SumCounts(Texts(cs), '?') == |Params(cs)|
  {
    if |cs| > 0 {
      var init := cs[..|cs| - 1];
      ConditionMarks(init);
      assert Texts(cs) == Texts(init) + [cs[|cs| - 1].text];
      SumCountsAppend(Texts(init), cs[|cs| - 1].text, '?');
    }
  }

  /** `"WHERE " + " AND ".join(conditions)`, or nothing when there are none. */
  function WhereClause(texts: seq<string>): string
  {
    var w := Join(texts, " AND ");
    if w != "" then "WHERE " + w else ""
  }

  // ----- the whole statement -----

  /** What `make_sql_from_form` returns. */
  datatype Query = Query(
    sql: string,
    values: seq<string>,
    selectKeys: seq<string>,
    isPercent: bool,
    isCountDisplay: bool)

  /** The statement for a column list and a WHERE clause. */
  function Statement(columns: string, where: string): string
  {
    "SELECT " + columns + " FROM sdvx_stats " + where
  }

  /** `make_sql_from_form(form, filter, display)`: the format flag is read
      first, then the selection, then the filters in `filter` order. */
  function MakeSql(form: Form, filter: seq<string>, display: seq<string>): Result<Query>
  {
    match FormatFlag(form)
    case Err(e) => Err(e)
    case Ok(isPercent) =>
      var selected := SelectedKeys(form, display);
      match Conditions(form, filter)
      case Err(e) => Err(e)
      case Ok(cs) =>
        Ok(Query(Statement(Columns(selected), WhereClause(Texts(cs))), Params(cs),
                 ResolveKeys(selected), isPercent, "count" in selected))
  }

  // ----- what the statement promises -----

  /** Every `?` in the statement has exactly one value, in the order the
      filters were read, as long as no column name itself holds a `?`. */
  lemma PlaceholdersMatchValues(form: Form, filter: seq<string>, display: seq<string>)
    requires forall k :: k in display ==> '?' !in k
    ensures MakeSql(form, filter, display).Ok? ==>
      CountChar(MakeSql(form, filter, display).value.sql, '?') == |MakeSql(form, filter, display).value.values|
  {
    var q := MakeSql(form, filter, display);
    if q.Ok? {
      var selected := SelectedKeys(form, display);
      var cs := Conditions(form, filter).value;
      assert q.value.sql == Statement(Columns(selected), WhereClause(Texts(cs)));
      assert q.value.values == Params(cs);
      ColumnsPlain(selected, display);
      WhereMarks(cs);
      StatementMarks(Columns(selected), WhereClause(Texts(cs)));
    }
  }

  /** The fixed words of the statement hold no `?`. */
  lemma StatementMarks(columns: string, where: string)
    ensures CountChar(Statement(columns, where), '?') == CountChar(columns, '?') + CountChar(where, '?')
  {
    CountCharAbsent("SELECT ", '?');
    CountCharAbsent(" FROM sdvx_stats ", '?');
    CountCharConcat("SELECT ", columns, '?');
    CountCharConcat("SELECT " + columns, " FROM sdvx_stats ", '?');
    CountCharConcat("SELECT " + columns + " FROM sdvx_stats ", where, '?');
  }

  /** The column list has no `?`. */
  lemma ColumnsPlain(selected: seq<string>, display: seq<string>)
    requires forall k :: k in display ==> '?' !in k
    requires forall k :: k in selected ==> k in display
    ensures CountChar(Columns(selected), '?') == 0
  {
    if |selected| == 0 {
      CountCharAbsent("*", '?');
    } else {
      var keys := ResolveKeys(selected);
      RequiredArePlain();
      assert forall i :: 0 <= i < |keys| ==> '?' !in keys[i] by {
        forall i | 0 <= i < |keys| ensures '?' !in keys[i] {
          assert keys[i] in keys;
        }
      }
      SumCountsAbsent(keys, '?');
      CountCharAbsent(", ", '?');
      CountCharJoin(keys, ", ", '?');
    }
  }

  lemma RequiredArePlain()
    ensures forall k :: k in RequiredColumns ==> '?' !in k
  {
  }

  /** The WHERE clause holds one `?` per value. */
  lemma WhereMarks(cs: seq<Condition>)
    requires forall i :: 0 <= i < |cs| ==> CountChar(cs[i].text, '?') == |cs[i].params|
    ensures CountChar(WhereClause(Texts(cs)), '?') == |Params(cs)|
  {
    ConditionMarks(cs);
    CountCharAbsent(" AND ", '?');
    CountCharJoin(Texts(cs), " AND ", '?');
    var w := Join(Texts(cs), " AND ");
    if w != "" {
      CountCharAbsent("WHERE ", '?');
      CountCharConcat("WHERE ", w, '?');
    }
  }

  /** Without a filter condition the statement has no WHERE clause (and
      keeps its trailing space); with one it has. */
  lemma WhereOnlyWithConditions(cs: seq<Condition>)
    requires forall i :: 0 <= i < |cs| ==> cs[i].text != ""
    ensures WhereClause(Texts(cs)) == "" <==> cs == []
    ensures cs != [] ==> WhereClause(Texts(cs)) == "WHERE " + Join(Texts(cs), " AND ")
  {
    JoinEmpty(Texts(cs), " AND ");
  }

  /** The chosen columns always include the count, the difficulty and the title. */
  lemma RequiredColumnsPresent(form: Form, filter: seq<string>, display: seq<string>)
    ensures MakeSql(form, filter, display).Ok? ==>
      forall c :: c in RequiredColumns ==> c in MakeSql(form, filter, display).value.selectKeys
  {
    var q := MakeSql(form, filter, display);
    if q.Ok? {
      var selected := SelectedKeys(form, display);
      assert q.value.selectKeys == ResolveKeys(selected);
      ResolveKeysRequired(selected);
    }
  }

  lemma ResolveKeysRequired(selected: seq<string>)
    ensures forall c :: c in RequiredColumns ==> c in ResolveKeys(selected)
  {
    if selected == [] {
      assert DisplayInfo[0] == "music_title" && DisplayInfo[1] == "difficulty_name";
      assert DisplayInfo[4] == "count";
    }
  }

  /** A narrowed choice keeps its own order and gets the missing required
      columns in front of it, the last of them first. */
  lemma NarrowedSelectionLayout(form: Form, filter: seq<string>, display: seq<string>)
    requires SelectedKeys(form, display) != []
    ensures MakeSql(form, filter, display).Ok? ==>
      MakeSql(form, filter, display).value.selectKeys
        == Missing(SelectedKeys(form, display), RequiredColumns) + SelectedKeys(form, display)
  {
    var q := MakeSql(form, filter, display);
    if q.Ok? {
      var selected := SelectedKeys(form, display);
      assert q.value.selectKeys == AddRequired(selected, RequiredColumns);
      RequiredDistinct();
      AddRequiredPrepends(selected, RequiredColumns);
    }
  }

  lemma RequiredDistinct()
    ensures Distinct(RequiredColumns)
  {
  }

  /** With nothing chosen, the query is `SELECT *` and the table shows every
      display column; the count is then not shown. */
  lemma NothingChosenShowsAll(form: Form, filter: seq<string>, display: seq<string>)
    requires forall k :: k in display ==> !Truthy(GetValue(form, k))
    ensures MakeSql(form, filter, display).Ok? ==>
      && MakeSql(form, filter, display).value.selectKeys == DisplayInfo
      && MakeSql(form, filter, display).value.sql
         == Statement("*", WhereClause(Texts(Conditions(form, filter).value)))
      && !MakeSql(form, filter, display).value.isCountDisplay
  {
    NoneChosen(form, display);
  }

  lemma {:induction false} NoneChosen(form: Form, display: seq<string>)
    requires forall k :: k in display ==> !Truthy(GetValue(form, k))
    ensures SelectedKeys(form, display) == []
  {
    if |display| > 0 {
      var init := display[..|display| - 1];
      assert forall k :: k in init ==> k in display;
      NoneChosen(form, init);
      assert display[|display| - 1] in display;
    }
  }

  /** The count column is shown exactly when the user ticked it; being added
      as a required column does not make it shown. */
  lemma CountShownOnlyWhenChosen(form: Form, filter: seq<string>, display: seq<string>)
    ensures MakeSql(form, filter, display).Ok? ==>
      (MakeSql(form, filter, display).value.isCountDisplay <==>
         "count" in display && Truthy(GetValue(form, "count")))
  {
  }

  /** A list of display columns without duplicates gives a column list
      without duplicates, so the title column is listed exactly once. */
  lemma NoDuplicateColumns(form: Form, filter: seq<string>, display: seq<string>)
    requires Distinct(display)
    ensures MakeSql(form, filter, display).Ok? ==>
      && Distinct(MakeSql(form, filter, display).value.selectKeys)
      && Occurrences(MakeSql(form, filter, display).value.selectKeys, "music_title") == 1
  {
    var q := MakeSql(form, filter, display);
    if q.Ok? {
      var selected := SelectedKeys(form, display);
      assert q.value.selectKeys == ResolveKeys(selected);
      ResolveKeysDistinct(selected);
    }
  }

  lemma ResolveKeysDistinct(selected: seq<string>)
    requires Distinct(selected)
    ensures Distinct(ResolveKeys(selected))
    ensures Occurrences(ResolveKeys(selected), "music_title") == 1
  {
    var keys := ResolveKeys(selected);
    ResolveKeysRequired(selected);
    assert "music_title" in keys by {
      assert RequiredColumns[2] == "music_title";
    }
    if selected == [] {
      DisplayDistinct();
    } else {
      RequiredDistinct();
      AddRequiredPrepends(selected, RequiredColumns);
    }
    DistinctOccursOnce(keys, "music_title");
  }

  /** The format flag is read before anything else: a bad one decides the
      outcome whatever the filters hold. */
  lemma FormatReadFirst(form: Form, filter: seq<string>, display: seq<string>)
    requires FormatFlag(form).Err?
    ensures MakeSql(form, filter, display) == Err(FormatFlag(form).error)
  {
  }

  /** A title or artist filter sent blank adds no condition; one sent with
      text matches it anywhere in the field. */
  lemma TextFilters(form: Form, name: string)
    requires name == "music_title_filter" || name == "artist_filter"
    requires name in form
    ensures form[name] == [""] ==> FilterCondition(form, name) == Ok(None)
    ensures form[name] != [""] ==>
      && FilterCondition(form, name).Ok?
      && FilterCondition(form, name).value.Some?
      && FilterCondition(form, name).value.value.params == ["%" + form[name][0] + "%"]
  {
  }

  /** `make_sql_from_form`, step by step: the comprehension, the insert loop
      over the required columns, the filter loop. */
  method MakeSqlFromForm(form: Form, filter: seq<string>, display: seq<string>) returns (r: Result<Query>)
    ensures r == MakeSql(form, filter, display)
  {
    var isPercent: bool;
    match FormatFlag(form) {
      case Err(e) => return Err(e);
      case Ok(p) => isPercent := p;
    }
    var selectKeys := SelectedKeys(form, display);
    var isCountDisplay := "count" in selectKeys;
    var columns: string;
    if |selectKeys| == 0 {
      columns := "*";
      selectKeys := DisplayInfo;
    } else {
      selectKeys := InsertRequired(selectKeys, RequiredColumns);
      columns := Join(selectKeys, ", ");
    }

    var collected := CollectConditions(form, filter);
    if collected.Err? {
      return Err(collected.error);
    }
    var (conditions, values) := collected.value;
    var whereClause := Join(conditions, " AND ");
    if whereClause != "" {
      whereClause := "WHERE " + whereClause;
    }
    var sql := "SELECT " + columns + " FROM sdvx_stats " + whereClause;
    return Ok(Query(sql, values, selectKeys, isPercent, isCountDisplay));
  }

  /** The loop that inserts each missing required column at the front. */
  method InsertRequired(selected: seq<string>, required: seq<string>) returns (keys: seq<string>)
    ensures keys == AddRequired(selected, required)
  {
    keys := selected;
    var i := 0;
    while i < |required|
      invariant 0 <= i <= |required|
      invariant keys == AddRequired(selected, required[..i])
    {
      var col := required[i];
      assert required[..i + 1][..i] == required[..i];
      assert AddRequired(selected, required[..i + 1])
          == if col in keys then keys else [col] + keys;
      if col !in keys {
        keys := [col] + keys;
      }
      i := i + 1;
    }
    assert required[..i] == required;
  }

  /** The filter loop: the `conditions` and `values` lists, or the exception
      a level or difficulty value raises. */
  method CollectConditions(form: Form, filter: seq<string>) returns (r: Result<(seq<string>, seq<string>)>)
    ensures r == match Conditions(form, filter)
      case Ok(cs) => Ok((Texts(cs), Params(cs)))
      case Err(e) => Err(e)
  {
    var conditions: seq<string> := [];
    var values: seq<string> := [];
    ghost var cs: seq<Condition> := [];
    var n := 0;
    while n < |filter|
      invariant 0 <= n <= |filter|
      invariant Conditions(form, filter[..n]) == Ok(cs)
      invariant conditions == Texts(cs) && values == Params(cs)
    {
      var added;
      ghost var next;
      added, next := CollectStep(form, filter, n, conditions, values, cs);
      if added.Err? {
        return Err(added.error);
      }
      cs := next;
      conditions, values := added.value.0, added.value.1;
      n := n + 1;
    }
    assert filter[..n] == filter;
    return Ok((conditions, values));
  }

  /** One pass of the filter loop over `filter[n]`: the lists extended as
      `Conditions` says, or the exception that then fails every filter. */
  method CollectStep(form: Form, filter: seq<string>, n: nat, conditions: seq<string>, values: seq<string>,
                     ghost cs: seq<Condition>)
    returns (r: Result<(seq<string>, seq<string>)>, ghost next: seq<Condition>)
    requires n < |filter| && Conditions(form, filter[..n]) == Ok(cs)
    requires conditions == Texts(cs) && values == Params(cs)
    ensures r.Err? ==> Conditions(form, filter) == Err(r.error)
    ensures r.Ok? ==> Conditions(form, filter[..n + 1]) == Ok(next) && r.value == (Texts(next), Params(next))
  {
    r := AddCondition(form, filter[n], conditions, values);
    next := ConditionsStep(form, filter, n, cs, r);
  }

  /** One pass of the filter loop: the field's condition and values
      appended, or the exception its values raise. */
  method AddCondition(form: Form, name: string, conditions: seq<string>, values: seq<string>)
    returns (r: Result<(seq<string>, seq<string>)>)
    ensures match FilterCondition(form, name)
      case Err(e) => r == Err(e)
      case Ok(None) => r == Ok((conditions, values))
      case Ok(Some(c)) => r == Ok((conditions + [c.text], values + c.params))
  {
    r := Ok((conditions, values));
    var value := GetList(form, name);
    if value != [] {
      if name == "level_filter" {
        match LevelValues(value) {
          case Err(e) => r := Err(e);
          case Ok(levels) => r := Ok((conditions + [InCondition(LevelPrefix, levels)], values + levels));
        }
      } else if name == "difficulty" {
        match DifficultyValues(value) {
          case Err(e) => r := Err(e);
          case Ok(names) => r := Ok((conditions + [InCondition(DifficultyPrefix, names)], values + names));
        }
      } else if name == "music_title_filter" && value != [""] {
        r := Ok((conditions + [TitleCondition], values + ["%" + value[0] + "%"]));
      } else if name == "artist_filter" && value != [""] {
        r := Ok((conditions + [ArtistCondition], values + ["%" + value[0] + "%"]));
      }
    }
  }

  /** One more filter extends the collected conditions by its own, or
      raises what that filter raises, and then so do all the filters. */
  lemma ConditionsStep(form: Form, names: seq<string>, n: nat, cs: seq<Condition>,
                       added: Result<(seq<string>, seq<string>)>) returns (next: seq<Condition>)
    requires n < |names| && Conditions(form, names[..n]) == Ok(cs)
    requires match FilterCondition(form, names[n])
      case Err(e) => added == Err(e)
      case Ok(None) => added == Ok((Texts(cs), Params(cs)))
      case Ok(Some(c)) => added == Ok((Texts(cs) + [c.text], Params(cs) + c.params))
    ensures added.Err? ==> Conditions(form, names) == Err(added.error)
    ensures added.Ok? ==> Conditions(form, names[..n + 1]) == Ok(next) && added.value == (Texts(next), Params(next))
  {
    assert names[..n + 1][..n] == names[..n];
    next := cs;
    match FilterCondition(form, names[n]) {
      case Err(e) =>
      case Ok(None) =>
      case Ok(Some(c)) =>
        TextsParamsAppend(cs, c);
        next := cs + [c];
    }
    if added.Err? {
      ConditionsKeepError(form, names, n + 1);
    }
  }

  /** Once a filter has raised, the later ones are never reached. */
  lemma {:induction false} ConditionsKeepError(form: Form, names: seq<string>, k: nat)
    requires k <= |names| && Conditions(form, names[..k]).Err?
    ensures Conditions(form, names) == Conditions(form, names[..k])
    decreases |names| - k
  {
    if k < |names| {
      var init := names[..|names| - 1];
      assert init[..k] == names[..k];
      ConditionsKeepError(form, init, k);
    } else {
      assert names[..k] == names;
    }
  }
}
