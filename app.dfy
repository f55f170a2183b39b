/** The web application: which page a submitted form asks for, the home
    ranking and the standard-score lookup with their fixed queries, the
    search result page, and the `{% key %}` substitution that fills a page
    template with the `page_data` dict. */
module App {
  import opened Base
  import opened Builtins
  import opened Column
  import opened Utils
  import opened MakeSql
  import opened CreateResults

  // ----- what the handlers read from outside -----

  /** The four page templates `load_html` reads. */
  datatype Templates = Templates(home: string, about: string, result: string, ss: string)

  /** The `sdvx_stats` table behind the connection: the rows a statement
      returns for its parameters, in order. */
  type Database = (string, seq<string>) -> seq<seq<Value>>

  // ----- the dispatch in `application` -----

  /** The four pages. */
  datatype Route = CalculatePage | ResultPage | AboutPage | HomePage

  /** The page a form asks for, by the first of its fields that is present. */
  function Dispatch(form: Form): Route
  {
    if "ss_music" in form then CalculatePage
    else if "submit" in form then ResultPage
    else if "about" in form then AboutPage
    else HomePage
  }

  /** `ss_music` wins over `submit`, which wins over `about`; the home page
      is served only when none of the three was sent. */
  lemma DispatchPrecedence(form: Form)
    ensures Dispatch(form) == CalculatePage <==> "ss_music" in form
    ensures Dispatch(form) == ResultPage <==> "ss_music" !in form && "submit" in form
    ensures Dispatch(form) == AboutPage <==> "ss_music" !in form && "submit" !in form && "about" in form
    ensures Dispatch(form) == HomePage <==> "ss_music" !in form && "submit" !in form && "about" !in form
  {
  }

  // ----- page_data and the template substitution -----

  /** A `page_data` dict: its items in insertion order. */
  type PageData = seq<(string, string)>

  /** The keys of a `page_data` dict, in insertion order. */
  function Keys(data: PageData): (keys: seq<string>)
    ensures |keys| == |data|
    ensures forall i :: 0 <= i < |data| ==> keys[i] == data[i].0
  {
    if |data| == 0 then [] else [data[0].0] + Keys(data[1..])
  }

  /** `page_data[key] = value`: a key already present keeps its place, a new
      one goes last. */
  function Put(data: PageData, key: string, value: string): PageData
  {
    if |data| == 0 then [(key, value)]
    else if data[0].0 == key then [(key, value)] + data[1..]
    else [data[0]] + Put(data[1..], key, value)
  }

  /** Storing a value keeps the key order, adds a new key at the end, makes
      the key read back the value and leaves every other key alone. */
  lemma {:induction false} PutKeepsOrder(data: PageData, key: string, value: string, other: string)
    ensures Keys(Put(data, key, value)) == if key in Keys(data) then Keys(data) else Keys(data) + [key]
    ensures Lookup(Put(data, key, value), key) == Some(value)
    ensures other != key ==> Lookup(Put(data, key, value), other) == Lookup(data, other)
  {
    if |data| > 0 {
      var rest := data[1..];
      if data[0].0 == key {
        assert ([(key, value)] + rest)[1..] == rest;
      } else {
        PutKeepsOrder(rest, key, value, other);
        assert ([data[0]] + Put(rest, key, value))[1..] == Put(rest, key, value);
        assert Keys(data) == [data[0].0] + Keys(rest);
      }
    }
  }

  /** Storing a new key appends it. */
  lemma {:induction false} PutAppends(data: PageData, key: string, value: string)
    requires forall i :: 0 <= i < |data| ==> data[i].0 != key
    ensures Put(data, key, value) == data + [(key, value)]
  {
    if |data| > 0 {
      PutAppends(data[1..], key, value);
      assert data == [data[0]] + data[1..];
    }
  }

  /** Storing a key already present overwrites its first item in place. */
  lemma {:induction false} PutReplaces(data: PageData, i: nat, key: string, value: string)
    requires i < |data| && data[i].0 == key
    requires forall j :: 0 <= j < i ==> data[j].0 != key
    ensures Put(data, key, value) == data[i := (key, value)]
  {
    if i > 0 {
      PutReplaces(data[1..], i - 1, key, value);
      assert data[i := (key, value)] == [data[0]] + data[1..][i - 1 := (key, value)];
    }
  }

  lemma {:induction false} KeysAppend(data: PageData, key: string, value: string)
    ensures Keys(data + [(key, value)]) == Keys(data) + [key]
  {
    if |data| > 0 {
      KeysAppend(data[1..], key, value);
      assert (data + [(key, value)])[1..] == data[1..] + [(key, value)];
    }
  }

  /** Storing a present key keeps every key where it is. */
  lemma PutKeepsKeys(data: PageData, key: string, value: string)
    requires key in Keys(data)
    ensures Keys(Put(data, key, value)) == Keys(data)
  {
    PutKeepsOrder(data, key, value, key);
  }

  /** The placeholder a template carries for `key`. */
  function Token(key: string): (t: string)
    ensures |t| > 0 && t[0] == '{'
  {
    "{% " + key + " %}"
  }

  /** The replace loop over `page_data`: each item in insertion order
      replaces every occurrence of its token in the text so far. */
  function FillTemplate(template: string, data: PageData): string
  {
    if |data| == 0 then template
    else
      var (key, value) := data[|data| - 1];
      ReplaceAll(FillTemplate(template, data[..|data| - 1]), Token(key), value)
  }

  /** The replace loop, item by item. */
  method ReplaceTokens(template: string, pageData: PageData) returns (response: string)
    ensures response == FillTemplate(template, pageData)
  {
    response := template;
    var i := 0;
    while i < |pageData|
      invariant 0 <= i <= |pageData|
      invariant response == FillTemplate(template, pageData[..i])
    {
      assert pageData[..i + 1][..i] == pageData[..i];
      var (key, value) := pageData[i];
      response := ReplaceAll(response, Token(key), value);
      i := i + 1;
    }
    assert pageData[..i] == pageData;
  }

  /** Each item's step replaces every occurrence of its token: the text it
      starts from is cut at the occurrences into pieces free of the token,
      the pieces joined by the token give that text back, and the pieces
      joined by the value are the text the step leaves. */
  lemma TokenReplaced(template: string, data: PageData, key: string, value: string)
    ensures var before := FillTemplate(template, data);
      var pieces := SplitOn(before, Token(key));
      && FillTemplate(template, data + [(key, value)]) == Join(pieces, value)
      && Join(pieces, Token(key)) == before
      && forall k :: 0 <= k < |pieces| ==> !Contains(pieces[k], Token(key))
  {
    var before := FillTemplate(template, data);
    assert (data + [(key, value)])[..|data|] == data;
    ReplaceIsSplitJoin(before, Token(key), value);
    SplitJoinRoundTrip(before, Token(key));
    PiecesAreFree(before, Token(key));
  }

  /** A template without a token is served as it is, whatever the page data. */
  lemma {:induction false} TemplateWithoutTokens(template: string, data: PageData)
    requires '{' !in template
    ensures FillTemplate(template, data) == template
  {
    if |data| > 0 {
      TemplateWithoutTokens(template, data[..|data| - 1]);
      ReplaceAbsent(template, Token(data[|data| - 1].0), data[|data| - 1].1);
    }
  }

  /** The replace loop, run once the handler got its `page_data`. */
  method Fill(template: string, pageData: Result<PageData>) returns (response: Result<string>)
    ensures response == Page(template, pageData)
  {
    if pageData.Err? {
      return Err(pageData.error);
    }
    var filled := ReplaceTokens(template, pageData.value);
    return Ok(filled);
  }

  /** The filled page, or the exception that ended the handler. */
  function Page(template: string, data: Result<PageData>): Result<string>
  {
    match data
    case Err(e) => Err(e)
    case Ok(d) => Ok(FillTemplate(template, d))
  }

  // ----- handle_home -----

  /** The columns of the home ranking. */
  const RankingKeys: seq<string> :=
    ["music_title", "difficulty_name", "level", "artist", "count", "avg_score", "avg_vf_10_i", "avg_skill_12_h"]

  /** The levels the ranking covers. */
  const RankingLevels: seq<string> := ["18", "19", "20"]

  /** The ranking's parameters: the difficulties from MAXIMUM on, then the levels. */
  function RankingValues(): seq<string>
  {
    Difficulties[3..] + RankingLevels
  }

  /** The ranking statement over the columns `keys`: the ten lowest average
      scores among the rows of the given difficulties and levels. */
  function RankingSql(keys: seq<string>, difficulties: seq<string>, levels: seq<string>): string
  {
    "SELECT " + Join(keys, ", ") + " FROM sdvx_stats "
      + "WHERE difficulty_name IN (" + CreatePlaceholder(difficulties) + ") "
      + "AND level IN (" + CreatePlaceholder(levels) + ") "
      + "ORDER BY avg_score ASC LIMIT 0, 10"
  }

  /** The `page_data` of the home and result pages before the table is made. */
  const ResultsDefaults: PageData := [("results_header", ""), ("results", "")]

  /** The home page's `page_data`: the ranking table under the display flags
      the previous request left. */
  function HomePageData(db: Database, isPercent: bool, isCountDisplay: bool): Result<PageData>
  {
    match ResultsTable(db(RankingSql(RankingKeys, Difficulties[3..], RankingLevels), RankingValues()), RankingKeys, isPercent, isCountDisplay, true)
    case Err(e) => Err(e)
    case Ok((header, body)) => Ok(Put(Put(ResultsDefaults, "results_header", header), "results", body))
  }

  /** The ranking statement has one placeholder per difficulty and one per
      level, the difficulties first, as long as no column name holds a `?`. */
  lemma RankingPlaceholders(keys: seq<string>, difficulties: seq<string>, levels: seq<string>)
    requires forall i :: 0 <= i < |keys| ==> '?' !in keys[i]
    ensures CountChar(RankingSql(keys, difficulties, levels), '?') == |difficulties| + |levels|
  {
    var columns := Join(keys, ", ");
    var d := CreatePlaceholder(difficulties);
    var l := CreatePlaceholder(levels);
    JoinPlain(keys, ", ", '?');
    PlaceholderMarks(difficulties);
    PlaceholderMarks(levels);
    var s1 := "SELECT " + columns;
    var s2 := s1 + " FROM sdvx_stats ";
    var s3 := s2 + "WHERE difficulty_name IN (";
    var s4 := s3 + d;
    var s5 := s4 + ") ";
    var s6 := s5 + "AND level IN (";
    var s7 := s6 + l;
    var s8 := s7 + ") ";
    // Each fixed text of the statement adds no placeholder.
    ConcatPlain(columns, "SELECT ", '?');
    ConcatPlain(s1, " FROM sdvx_stats ", '?');
    ConcatPlain(s2, "WHERE difficulty_name IN (", '?');
    CountCharConcat(s3, d, '?');
    ConcatPlain(s4, ") ", '?');
    ConcatPlain(s5, "AND level IN (", '?');
    CountCharConcat(s6, l, '?');
    ConcatPlain(s7, ") ", '?');
    ConcatPlain(s8, "ORDER BY avg_score ASC LIMIT 0, 10", '?');
  }

  /** The home ranking's nine parameters are the six top difficulties and
      the three levels, in the order of its nine placeholders. */
  lemma RankingQuery()
    ensures RankingValues() == ["MAXIMUM", "INFINITE", "GRAVITY", "HEAVENLY", "VIVID", "EXCEED", "18", "19", "20"]
    ensures CountChar(RankingSql(RankingKeys, Difficulties[3..], RankingLevels), '?') == |RankingValues()|
  {
    RankingValuesListed();
    RankingKeysPlain();
    RankingPlaceholders(RankingKeys, Difficulties[3..], RankingLevels);
  }

  lemma RankingValuesListed()
    ensures RankingValues() == ["MAXIMUM", "INFINITE", "GRAVITY", "HEAVENLY", "VIVID", "EXCEED", "18", "19", "20"]
  {
    DifficultyTiers();
  }

  lemma RankingKeysPlain()
    ensures forall i :: 0 <= i < |RankingKeys| ==> '?' !in RankingKeys[i]
  {
  }

  /** The ranking columns all have labels and include the count column, at
      position 4, so the header renders, with the count cell only when it
      is displayed, and no row fails on the count lookup. */
  lemma RankingTableRenders(isPercent: bool, isCountDisplay: bool)
    ensures IndexOf(RankingKeys, "count") == Some(4)
    ensures HeaderCells(RankingKeys, isPercent, isCountDisplay).Ok?
    ensures |HeaderCells(RankingKeys, isPercent, isCountDisplay).value| == if isCountDisplay then 8 else 7
  {
    RankingCountAt4();
    RankingLabelled();
    RankingKeyOnce("count");
    ShownCountDropsCount(RankingKeys, isCountDisplay);
  }

  /** Every ranking column occurs once, so the count cell is dropped once
      and header and body rows line up. */
  lemma RankingKeyOnce(k: string)
    requires k in RankingKeys
    ensures Occurrences(RankingKeys, k) == 1
  {
    RankingDistinct();
    DistinctOccursOnce(RankingKeys, k);
  }

  lemma RankingCountAt4()
    ensures IndexOf(RankingKeys, "count") == Some(4)
  {
    assert RankingKeys[4] == "count";
    assert "count" !in RankingKeys[..4];
  }

  lemma RankingLabelled()
    ensures forall k :: k in RankingKeys ==> Label(k).Some?
  {
    assert forall k :: k in RankingKeys ==> k in DisplayInfo;
    forall k | k in RankingKeys ensures Label(k).Some? {
      LabelledExactlyDisplayed(k);
    }
  }

  lemma RankingDistinct()
    ensures Distinct(RankingKeys)
  {
  }

  // ----- handle_result -----

  /** The result page's `page_data` for the query built from the form. */
  function ResultPageData(db: Database, q: Query): Result<PageData>
  {
    match ResultsTable(db(q.sql, q.values), q.selectKeys, q.isPercent, q.isCountDisplay, false)
    case Err(e) => Err(e)
    case Ok((header, body)) => Ok(Put(Put(ResultsDefaults, "results_header", header), "results", body))
  }

  /** The result page for a form: the query, then the table of its rows. */
  function ResultResponse(template: string, db: Database, form: Form): Result<string>
  {
    match MakeSql.MakeSql(form, FilterInfo, DisplayInfo)
    case Err(e) => Err(e)
    case Ok(q) => Page(template, ResultPageData(db, q))
  }

  /** No display key holds a `?`. */
  lemma DisplayPlain()
    ensures forall k :: k in DisplayInfo ==> '?' !in k
  {
    PlainFrom0();
    PlainFrom10();
    PlainFrom20();
    PlainFrom29();
    forall k | k in DisplayInfo ensures '?' !in k {
      var i :| 0 <= i < |DisplayInfo| && DisplayInfo[i] == k;
    }
  }

  lemma PlainFrom0()
    ensures forall i :: 0 <= i < 10 ==> '?' !in DisplayInfo[i]
  {
  }

  lemma PlainFrom10()
    ensures forall i :: 10 <= i < 20 ==> '?' !in DisplayInfo[i]
  {
  }

  lemma PlainFrom20()
    ensures forall i :: 20 <= i < 29 ==> '?' !in DisplayInfo[i]
  {
  }

  lemma PlainFrom29()
    ensures forall i :: 29 <= i < 38 ==> '?' !in DisplayInfo[i]
  {
  }

  /** A query built from a form has a value for each placeholder, keeps the
      count column the rows are rated against, and selects only labelled
      columns, so its header renders. */
  lemma ResultQueryRenders(form: Form)
    ensures MakeSql.MakeSql(form, FilterInfo, DisplayInfo).Ok? ==>
      var q := MakeSql.MakeSql(form, FilterInfo, DisplayInfo).value;
      && CountChar(q.sql, '?') == |q.values|
      && "count" in q.selectKeys
      && HeaderCells(q.selectKeys, q.isPercent, q.isCountDisplay).Ok?
  {
    var r := MakeSql.MakeSql(form, FilterInfo, DisplayInfo);
    if r.Ok? {
      var q := r.value;
      DisplayPlain();
      PlaceholdersMatchValues(form, FilterInfo, DisplayInfo);
      RequiredColumnsPresent(form, FilterInfo, DisplayInfo);
      assert "count" in RequiredColumns;
      var selected := SelectedKeys(form, DisplayInfo);
      assert q.selectKeys == ResolveKeys(selected);
      RequiredAreDisplayed();
      forall k | k in q.selectKeys ensures Label(k).Some? {
        assert k in DisplayInfo;
        LabelledExactlyDisplayed(k);
      }
    }
  }

  // ----- handle_calculate -----

  const EnterScoreMessage := "<h3>スコアを入力してください。</h3>\n"
  const NotFoundMessage := "<h3>検索結果が見つかりませんでした。</h3>\n"

  /** The calculate page's `page_data` before anything is looked up. */
  const CalculateDefaults: PageData :=
    [("ss_results", NotFoundMessage), ("data_info", ""), ("results_header", ""), ("results_table", "")]

  /** What an f-string shows for the result of `getvalue`: the text, `None`
      for a missing field, the list's `repr` for a repeated one. */
  function Shown(v: FieldValue): string
  {
    match v
    case Absent => "None"
    case One(text) => text
    case Many(items) => "[" + Join(seq(|items|, i requires 0 <= i < |items| => "'" + items[i] + "'"), ", ") + "]"
  }

  /** The lookup statement for the chosen difficulties. */
  function LookupSql(difficulties: seq<string>): string
  {
    "SELECT * FROM sdvx_stats "
      + "WHERE music_title=? AND difficulty_name IN (" + CreatePlaceholder(difficulties) + ")"
  }

  /** The lookup's parameters: the title, then the difficulties. */
  function LookupValues(title: string, difficulties: seq<string>): (values: seq<string>)
  {
    [title] + difficulties
  }

  /** The lookup's rows: a repeated title is a list sqlite cannot bind, and
      a missing one is bound as NULL, which no title equals. */
  function LookupRows(db: Database, title: FieldValue, difficulties: seq<string>): Result<seq<seq<Value>>>
  {
    match title
    case One(t) => Ok(db(LookupSql(difficulties), LookupValues(t, difficulties)))
    case Many(_) => Err(DatabaseError)
    case Absent => Ok([])
  }

  /** `search_result[select_keys.index(key)]`. */
  function ColumnOf(row: seq<Value>, keys: seq<string>, key: string): Result<Value>
  {
    match IndexOf(keys, key)
    case None => Err(ValueError)
    case Some(i) => Cell(row, i)
  }

  /** The heading over the statistics of a title. */
  function DataInfo(title: string): string
  {
    "<h4>'" + title + "'の統計データ</h4>\n"
  }

  /** `create_deviation_score_results(ss_score, ...)`: `int()` of a missing
      or repeated score raises `TypeError`, which validation does not catch. */
  function DeviationResults(score: FieldValue, sd: Value, avg: Value): Result<string>
  {
    if score.One? then CreateDeviationScoreResults(score.text, sd, avg) else Err(TypeError)
  }

  /** The `page_data` once the lookup found a row, with `keys` the columns
      of the table. */
  function FoundPageData(data: PageData, keys: seq<string>, title: string, score: FieldValue,
                         rows: seq<seq<Value>>): Result<PageData>
    requires |rows| > 0
  {
    match ColumnOf(rows[0], keys, "avg_score")
    case Err(e) => Err(e)
    case Ok(avg) =>
      match ColumnOf(rows[0], keys, "sd_score")
      case Err(e) => Err(e)
      case Ok(sd) =>
        match DeviationResults(score, sd, avg)
        case Err(e) => Err(e)
        case Ok(results) =>
          match ResultsTable(rows, keys, true, true, false)
          case Err(e) => Err(e)
          case Ok((header, body)) =>
            var info := Put(Put(data, "ss_results", results), "data_info", DataInfo(title));
            Ok(Put(Put(info, "results_header", header), "results_table", body))
  }

  /** The statistics of the found rows: the standard score, the heading and
      the table, each stored in `page_data`. */
  method FillStatistics(pageData: PageData, keys: seq<string>, title: string, ssScore: FieldValue,
                        rows: seq<seq<Value>>) returns (r: Result<PageData>)
    requires |rows| > 0
    ensures r == FoundPageData(pageData, keys, title, ssScore, rows)
  {
    var searchResult := rows[0];
    var avgScore := ColumnOf(searchResult, keys, "avg_score");
    if avgScore.Err? {
      return Err(avgScore.error);
    }
    var sdScore := ColumnOf(searchResult, keys, "sd_score");
    if sdScore.Err? {
      return Err(sdScore.error);
    }
    var results := DeviationResults(ssScore, sdScore.value, avgScore.value);
    if results.Err? {
      return Err(results.error);
    }
    var data := Put(pageData, "ss_results", results.value);
    data := Put(data, "data_info", DataInfo(title));
    var table := CreateResultsTable(rows, keys, true, true, false);
    if table.Err? {
      return Err(table.error);
    }
    data := Put(data, "results_header", table.value.0);
    data := Put(data, "results_table", table.value.1);
    return Ok(data);
  }

  /** The lookup statement of `handle_calculate` and the rows it returns. */
  method FetchRows(db: Database, musicTitle: FieldValue, searchDifficulty: seq<string>)
    returns (rows: Result<seq<seq<Value>>>)
    ensures rows == LookupRows(db, musicTitle, searchDifficulty)
  {
    var sql := "SELECT * FROM sdvx_stats "
      + "WHERE music_title=? AND difficulty_name IN (" + CreatePlaceholder(searchDifficulty) + ")";
    match musicTitle {
      case One(t) =>
        var sqlValues := [t] + searchDifficulty;
        rows := Ok(db(sql, sqlValues));
      case Many(_) => rows := Err(DatabaseError);
      case Absent => rows := Ok([]);
    }
  }

  /** The `page_data` of `handle_calculate`, step by step. */
  method BuildCalculatePage(form: Form, db: Database) returns (pageData: Result<PageData>)
    ensures pageData == CalculatePageData(form, db)
  {
    var data := CalculateDefaults;
    var musicTitle := GetValue(form, "ss_music");
    data := Put(data, "music_title", "'" + Shown(musicTitle) + "'");
    if "submit" !in form {
      data := Put(data, "ss_results", EnterScoreMessage);
      return Ok(data);
    }
    var difficulty := GetValue(form, "ss_difficulty");
    if !difficulty.One? {
      return Err(AttributeError);
    }
    var searchDifficulty := SplitOn(difficulty.text, ",");
    var ssScore := GetValue(form, "ss_score");
    pageData := ShowStatistics(data, db, musicTitle, searchDifficulty, ssScore, DisplayInfo);
  }

  /** The lookup, then the statistics of its first row if it found one. */
  method ShowStatistics(pageData: PageData, db: Database, musicTitle: FieldValue, searchDifficulty: seq<string>,
                        ssScore: FieldValue, keys: seq<string>) returns (r: Result<PageData>)
    ensures r == StatisticsPageData(pageData, db, musicTitle, searchDifficulty, ssScore, keys)
  {
    var rows := FetchRows(db, musicTitle, searchDifficulty);
    if rows.Err? {
      return Err(rows.error);
    }
    if |rows.value| > 0 && |rows.value[0]| > 0 {
      r := FillStatistics(pageData, keys, Shown(musicTitle), ssScore, rows.value);
    } else {
      r := Ok(pageData);
    }
  }

  /** The calculate page's `page_data`. */
  function CalculatePageData(form: Form, db: Database): Result<PageData>
  {
    var data := Put(CalculateDefaults, "music_title", "'" + Shown(GetValue(form, "ss_music")) + "'");
    if "submit" !in form then Ok(Put(data, "ss_results", EnterScoreMessage))
    else SearchPageData(form, db, data)
  }

  /** The calculate page's `page_data` once a score was submitted: the
      difficulties are split at commas and every display column is shown. */
  function SearchPageData(form: Form, db: Database, data: PageData): Result<PageData>
  {
    match GetValue(form, "ss_difficulty")
    case One(text) =>
      StatisticsPageData(data, db, GetValue(form, "ss_music"), SplitOn(text, ","), GetValue(form, "ss_score"), DisplayInfo)
    case _ => Err(AttributeError)
  }

  /** The statistics of the title at the difficulties, if the lookup finds
      any, with `keys` the columns of the table. */
  function StatisticsPageData(data: PageData, db: Database, title: FieldValue, difficulties: seq<string>,
                              score: FieldValue, keys: seq<string>): Result<PageData>
  {
    match LookupRows(db, title, difficulties)
    case Err(e) => Err(e)
    case Ok(rows) =>
      if |rows| == 0 || |rows[0]| == 0 then Ok(data)
      else FoundPageData(data, keys, Shown(title), score, rows)
  }

  /** The lookup has one placeholder for the title and one per difficulty,
      matching its parameters one for one. */
  lemma LookupQuery(title: string, difficulties: seq<string>)
    ensures CountChar(LookupSql(difficulties), '?') == |LookupValues(title, difficulties)| == 1 + |difficulties|
    ensures LookupValues(title, difficulties)[0] == title
    ensures LookupValues(title, difficulties)[1..] == difficulties
  {
    var p := CreatePlaceholder(difficulties);
    PlaceholderMarks(difficulties);
    var s1 := "WHERE music_title=? AND difficulty_name IN (" + p;
    TitleMarks(p);
    ConcatPlain(s1, "SELECT * FROM sdvx_stats ", '?');
    ConcatPlain("SELECT * FROM sdvx_stats " + s1, ")", '?');
    assert LookupSql(difficulties) == ("SELECT * FROM sdvx_stats " + s1) + ")";
  }

  /** The title condition adds the lookup's first placeholder. */
  lemma TitleMarks(x: string)
    ensures CountChar("WHERE music_title=? AND difficulty_name IN (" + x, '?') == CountChar(x, '?') + 1
  {
    TitleMarkOnce();
    CountCharConcat("WHERE music_title=? AND difficulty_name IN (", x, '?');
  }

  lemma TitleMarkOnce()
    ensures CountChar("WHERE music_title=? AND difficulty_name IN (", '?') == 1
  {
    CountCharOnce("WHERE music_title=? AND difficulty_name IN (", 18, '?');
  }

  /** The average and the deviation are read at their display positions,
      which are their positions in the table as created. */
  lemma ScoreColumns(row: seq<Value>)
    ensures ColumnOf(row, DisplayInfo, "avg_score") == Cell(row, 20)
    ensures ColumnOf(row, DisplayInfo, "sd_score") == Cell(row, 21)
  {
    AverageAt20();
    DeviationAt21();
  }

  lemma AverageAt20()
    ensures IndexOf(DisplayInfo, "avg_score") == Some(20)
  {
    assert DisplayInfo[20] == "avg_score";
    assert "avg_score" !in DisplayInfo[..20];
  }

  lemma DeviationAt21()
    ensures IndexOf(DisplayInfo, "sd_score") == Some(21)
  {
    assert DisplayInfo[21] == "sd_score";
    assert "sd_score" !in DisplayInfo[..21];
  }

  /** The calculate page's `page_data` once the title is stored: the title
      goes after the four defaults. */
  lemma TitleStored(title: string)
    ensures Put(CalculateDefaults, "music_title", title) == CalculateDefaults + [("music_title", title)]
    ensures Keys(CalculateDefaults + [("music_title", title)])
         == ["ss_results", "data_info", "results_header", "results_table", "music_title"]
  {
    PutAppends(CalculateDefaults, "music_title", title);
    KeysAppend(CalculateDefaults, "music_title", title);
  }

  /** Without `submit` the page asks for a score and nothing is looked up:
      the outcome names no database. */
  lemma CalculateWithoutSubmit(form: Form, db: Database)
    requires "submit" !in form
    ensures CalculatePageData(form, db) == Ok([("ss_results", EnterScoreMessage), ("data_info", ""),
      ("results_header", ""), ("results_table", ""), ("music_title", "'" + Shown(GetValue(form, "ss_music")) + "'")])
  {
    var title := "'" + Shown(GetValue(form, "ss_music")) + "'";
    AskScoreOnly(form, db);
    AskScorePage(title);
  }

  lemma AskScoreOnly(form: Form, db: Database)
    requires "submit" !in form
    ensures CalculatePageData(form, db)
         == Ok(Put(Put(CalculateDefaults, "music_title", "'" + Shown(GetValue(form, "ss_music")) + "'"),
                   "ss_results", EnterScoreMessage))
  {
  }

  lemma AskScorePage(title: string)
    ensures Put(Put(CalculateDefaults, "music_title", title), "ss_results", EnterScoreMessage)
         == [("ss_results", EnterScoreMessage), ("data_info", ""), ("results_header", ""),
             ("results_table", ""), ("music_title", title)]
  {
    TitleStored(title);
    PutReplaces(CalculateDefaults + [("music_title", title)], 0, "ss_results", EnterScoreMessage);
  }

  /** A title the lookup does not find leaves the "not found" message and
      an empty table. */
  lemma CalculateNotFound(form: Form, db: Database)
    requires "submit" in form && GetValue(form, "ss_difficulty").One? && GetValue(form, "ss_music").One?
    requires db(LookupSql(SplitOn(form["ss_difficulty"][0], ",")),
                LookupValues(form["ss_music"][0], SplitOn(form["ss_difficulty"][0], ","))) == []
    ensures CalculatePageData(form, db).Ok?
    ensures Lookup(CalculatePageData(form, db).value, "ss_results") == Some(NotFoundMessage)
    ensures Lookup(CalculatePageData(form, db).value, "results_table") == Some("")
  {
    NothingFound(form, db);
    DefaultsRead("'" + Shown(GetValue(form, "ss_music")) + "'");
  }

  lemma DefaultsRead(title: string)
    ensures Lookup(Put(CalculateDefaults, "music_title", title), "ss_results") == Some(NotFoundMessage)
    ensures Lookup(Put(CalculateDefaults, "music_title", title), "results_table") == Some("")
  {
    TitleStored(title);
    LookupFirst(CalculateDefaults + [("music_title", title)], 0, "ss_results");
    LookupFirst(CalculateDefaults + [("music_title", title)], 3, "results_table");
  }

  lemma NothingFound(form: Form, db: Database)
    requires "submit" in form && GetValue(form, "ss_difficulty").One? && GetValue(form, "ss_music").One?
    requires db(LookupSql(SplitOn(form["ss_difficulty"][0], ",")),
                LookupValues(form["ss_music"][0], SplitOn(form["ss_difficulty"][0], ","))) == []
    ensures CalculatePageData(form, db)
         == Ok(Put(CalculateDefaults, "music_title", "'" + Shown(GetValue(form, "ss_music")) + "'"))
  {
  }

  /** Filling in a found row stores only keys already present. */
  lemma FoundKeepsKeys(data: PageData, keys: seq<string>, title: string, score: FieldValue, rows: seq<seq<Value>>)
    requires |rows| > 0
    requires "ss_results" in Keys(data) && "data_info" in Keys(data)
    requires "results_header" in Keys(data) && "results_table" in Keys(data)
    ensures FoundPageData(data, keys, title, score, rows).Ok? ==>
      Keys(FoundPageData(data, keys, title, score, rows).value) == Keys(data)
  {
    var r := FoundPageData(data, keys, title, score, rows);
    if r.Ok? {
      var avg := ColumnOf(rows[0], keys, "avg_score").value;
      var sd := ColumnOf(rows[0], keys, "sd_score").value;
      var results := DeviationResults(score, sd, avg).value;
      var (header, body) := ResultsTable(rows, keys, true, true, false).value;
      var d1 := Put(data, "ss_results", results);
      PutKeepsKeys(data, "ss_results", results);
      var d2 := Put(d1, "data_info", DataInfo(title));
      PutKeepsKeys(d1, "data_info", DataInfo(title));
      var d3 := Put(d2, "results_header", header);
      PutKeepsKeys(d2, "results_header", header);
      PutKeepsKeys(d3, "results_table", body);
    }
  }

  /** The submitted branch stores only keys already present. */
  lemma SearchKeepsKeys(form: Form, db: Database, data: PageData)
    requires "ss_results" in Keys(data) && "data_info" in Keys(data)
    requires "results_header" in Keys(data) && "results_table" in Keys(data)
    ensures SearchPageData(form, db, data).Ok? ==> Keys(SearchPageData(form, db, data).value) == Keys(data)
  {
    var musicTitle := GetValue(form, "ss_music");
    var difficulty := GetValue(form, "ss_difficulty");
    if difficulty.One? {
      var rows := LookupRows(db, musicTitle, SplitOn(difficulty.text, ","));
      if rows.Ok? && |rows.value| > 0 && |rows.value[0]| > 0 {
        FoundKeepsKeys(data, DisplayInfo, Shown(musicTitle), GetValue(form, "ss_score"), rows.value);
      }
    }
  }

  /** Whatever happens, the page's keys stay in the order they were first
      stored: the four defaults, then the title. */
  lemma CalculateSubstitutionOrder(form: Form, db: Database)
    ensures CalculatePageData(form, db).Ok? ==>
      Keys(CalculatePageData(form, db).value)
        == ["ss_results", "data_info", "results_header", "results_table", "music_title"]
  {
    var title := "'" + Shown(GetValue(form, "ss_music")) + "'";
    TitleStored(title);
    var data := CalculateDefaults + [("music_title", title)];
    if "submit" !in form {
      PutKeepsKeys(data, "ss_results", EnterScoreMessage);
    } else {
      SearchKeepsKeys(form, db, data);
    }
  }

  /** The home and result pages fill the header first, then the body. */
  lemma ResultsSubstitutionOrder(header: string, body: string)
    ensures Put(Put(ResultsDefaults, "results_header", header), "results", body)
         == [("results_header", header), ("results", body)]
  {
  }

  // ----- the application object -----

  /** `SdvxStatsApp`: the handlers and the display state one request leaves
      for the next. */
  class SdvxStatsApp {
    /** The columns the last table showed. */
    var selectKeys: seq<string>
    /** Whether the count column is shown. */
    var isCountDisplay: bool
    /** Whether achievement columns show rates rather than counts. */
    var isPercent: bool
    /** The page templates. */
    const pages: Templates
    /** The statistics table. */
    const db: Database

    constructor(pages: Templates, db: Database)
      ensures this.pages == pages && this.db == db
      ensures selectKeys == [] && !isCountDisplay && !isPercent
    {
      this.pages := pages;
      this.db := db;
      selectKeys := [];
      isCountDisplay := false;
      isPercent := false;
    }

    /** `handle_home`: the ranking, shown under the flags the last search left. */
    method HandleHome() returns (response: Result<string>)
      modifies this
      ensures selectKeys == RankingKeys
      ensures isPercent == old(isPercent) && isCountDisplay == old(isCountDisplay)
      ensures response == Page(pages.home, HomePageData(db, isPercent, isCountDisplay))
    {
      var pageData := ResultsDefaults;
      selectKeys := RankingKeys;
      var rankingDisplayLevels := ["18", "19", "20"];
      var rankingDisplayDifficulties := Difficulties[3..];
      var rankingDisplayValues := rankingDisplayDifficulties + rankingDisplayLevels;
      var sql := "SELECT " + Join(selectKeys, ", ") + " FROM sdvx_stats "
        + "WHERE difficulty_name IN (" + CreatePlaceholder(rankingDisplayDifficulties) + ") "
        + "AND level IN (" + CreatePlaceholder(rankingDisplayLevels) + ") "
        + "ORDER BY avg_score ASC LIMIT 0, 10";
      var table := CreateResultsTable(db(sql, rankingDisplayValues), selectKeys, isPercent, isCountDisplay, true);
      if table.Err? {
        return Err(table.error);
      }
      pageData := Put(pageData, "results_header", table.value.0);
      pageData := Put(pageData, "results", table.value.1);
      var filled := ReplaceTokens(pages.home, pageData);
      return Ok(filled);
    }

    /** `handle_about`: the page as it is read. */
    method HandleAbout() returns (response: string)
      ensures response == pages.about
    {
      response := pages.about;
    }

    /** `handle_result`: the search the form describes; the display state is
      replaced only once the query is built. */
    method HandleResult(form: Form) returns (response: Result<string>)
      modifies this
      ensures response == ResultResponse(pages.result, db, form)
      ensures (selectKeys, isPercent, isCountDisplay)
           == match MakeSql.MakeSql(form, FilterInfo, DisplayInfo)
              case Ok(q) => (q.selectKeys, q.isPercent, q.isCountDisplay)
              case Err(_) => (old(selectKeys), old(isPercent), old(isCountDisplay))
    {
      var pageData := ResultsDefaults;
      var query := MakeSqlFromForm(form, FilterInfo, DisplayInfo);
      if query.Err? {
        return Err(query.error);
      }
      var q := query.value;
      selectKeys, isPercent, isCountDisplay := q.selectKeys, q.isPercent, q.isCountDisplay;
      var table := CreateResultsTable(db(q.sql, q.values), selectKeys, isPercent, isCountDisplay, false);
      if table.Err? {
        return Err(table.error);
      }
      pageData := Put(pageData, "results_header", table.value.0);
      pageData := Put(pageData, "results", table.value.1);
      var filled := ReplaceTokens(pages.result, pageData);
      return Ok(filled);
    }

    /** `handle_calculate`: the standard score of the submitted score against
      the statistics of a title, and those statistics. Every display column
      is selected once the difficulties were split. */
    method HandleCalculate(form: Form) returns (response: Result<string>)
      modifies this
      ensures response == Page(pages.ss, CalculatePageData(form, db))
      ensures (selectKeys, isPercent, isCountDisplay)
           == (if "submit" in form && GetValue(form, "ss_difficulty").One? then DisplayInfo else old(selectKeys),
               old(isPercent), old(isCountDisplay))
    {
      var pageData := BuildCalculatePage(form, db);
      if "submit" in form && GetValue(form, "ss_difficulty").One? {
        selectKeys := DisplayInfo;
      }
      response := Fill(pages.ss, pageData);
    }

    /** `application`: the page the form asks for. */
    method Application(form: Form) returns (response: Result<string>)
      modifies this
      ensures match Dispatch(form)
        case CalculatePage =>
          && response == Page(pages.ss, CalculatePageData(form, db))
          && (selectKeys, isPercent, isCountDisplay)
             == (if "submit" in form && GetValue(form, "ss_difficulty").One? then DisplayInfo else old(selectKeys),
                 old(isPercent), old(isCountDisplay))
        case ResultPage =>
          && response == ResultResponse(pages.result, db, form)
          && (selectKeys, isPercent, isCountDisplay)
             == (match MakeSql.MakeSql(form, FilterInfo, DisplayInfo)
                 case Ok(q) => (q.selectKeys, q.isPercent, q.isCountDisplay)
                 case Err(_) => (old(selectKeys), old(isPercent), old(isCountDisplay)))
        case AboutPage =>
          && response == Ok(pages.about)
          && selectKeys == old(selectKeys) && isPercent == old(isPercent) && isCountDisplay == old(isCountDisplay)
        case HomePage =>
          && response == Page(pages.home, HomePageData(db, old(isPercent), old(isCountDisplay)))
          && selectKeys == RankingKeys && isPercent == old(isPercent) && isCountDisplay == old(isCountDisplay)
    {
      if "ss_music" in form {
        response := HandleCalculate(form);
      } else if "submit" in form {
        response := HandleResult(form);
      } else if "about" in form {
        var page := HandleAbout();
        response := Ok(page);
      } else {
        response := HandleHome();
      }
    }
  }
}
