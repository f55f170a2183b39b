/** The HTML of the search results: the header row of the table, one body
    row per result row, and the line that reports a standard score. */
module CreateResults {
  import opened Base
  import opened Builtins
  import opened Column
  import opened Utils

  // ----- create_results_header -----

  const RankHeader := "<tr>\n<th class='con' id='rank'>RANK</th>\n"
  const VideoHeader := "<th class='con' id='0'>動画</th>\n"
  const RowEnd := "</tr>\n"

  /** The column name a header cell shows: the registry label, with ` (%)`
      or ` (人)` after an achievement column; a key the registry lacks is a
      `KeyError`. */
  function HeaderName(key: string, isPercent: bool): (r: Result<string>)
    ensures r.Ok? <==> Label(key).Some?
    ensures r.Err? ==> r.error == KeyError
  {
    match Label(key)
    case None => Err(KeyError)
    case Some(text) =>
      if IsAchievement(key) then Ok(text + (if isPercent then " (%)" else " (人)"))
      else Ok(text)
  }

  /** Exactly the display columns have a header name; an achievement
      column's name says whether it shows rates or counts. */
  lemma HeaderNameOf(key: string, isPercent: bool)
    ensures HeaderName(key, isPercent).Ok? <==> key in DisplayInfo
    ensures HeaderName(key, isPercent).Ok? && IsAchievement(key) ==>
      HeaderName(key, isPercent).value == Label(key).value + (if isPercent then " (%)" else " (人)")
    ensures HeaderName(key, isPercent).Ok? && !IsAchievement(key) ==>
      HeaderName(key, isPercent).value == Label(key).value
  {
    LabelledExactlyDisplayed(key);
  }

  /** A `<th>` cell with the 1-based position of its key as its id. */
  function HeaderCell(index: nat, name: string): string
  {
    "<th class='con' id='" + IntToString(index + 1) + "'>" + name + "</th>\n"
  }

  /** The key is the hidden count column. */
  predicate Hidden(key: string, isCountDisplay: bool)
  {
    key == "count" && !isCountDisplay
  }

  /** The number of keys left after the hidden count column is dropped. */
  function ShownCount(keys: seq<string>, isCountDisplay: bool): nat
  {
    if |keys| == 0 then 0
    else
      ShownCount(keys[..|keys| - 1], isCountDisplay)
        + (if Hidden(keys[|keys| - 1], isCountDisplay) then 0 else 1)
  }

  /** The key cells of the header for `keys`, in order; the name is looked up
      before the count column is skipped. */
  function HeaderCells(keys: seq<string>, isPercent: bool, isCountDisplay: bool): (r: Result<seq<string>>)
    ensures r.Ok? <==> forall k :: k in keys ==> Label(k).Some?
    ensures r.Err? ==> r.error == KeyError
    ensures r.Ok? ==> |r.value| == ShownCount(keys, isCountDisplay)
  {
    if |keys| == 0 then Ok([])
    else
      var init := keys[..|keys| - 1];
      var key := keys[|keys| - 1];
      assert keys == init + [key];
      match HeaderCells(init, isPercent, isCountDisplay)
      case Err(e) => Err(e)
      case Ok(cells) =>
        match HeaderName(key, isPercent)
        case Err(e) => Err(e)
        case Ok(name) =>
          if Hidden(key, isCountDisplay) then Ok(cells)
          else Ok(cells + [HeaderCell(|keys| - 1, name)])
  }

  /** `create_results_header(select_keys, is_percent, is_count_display, is_ranking)`. */
  function Header(keys: seq<string>, isPercent: bool, isCountDisplay: bool, isRanking: bool): Result<string>
  {
    match HeaderCells(keys, isPercent, isCountDisplay)
    case Err(e) => Err(e)
    case Ok(cells) =>
      Ok((if isRanking then RankHeader else "") + VideoHeader + Concat(cells) + RowEnd)
  }

  /** The header loop, one key at a time. */
  method CreateResultsHeader(keys: seq<string>, isPercent: bool, isCountDisplay: bool, isRanking: bool)
    returns (r: Result<string>)
    ensures r == Header(keys, isPercent, isCountDisplay, isRanking)
  {
    var header := "";
    if isRanking {
      header := header + RankHeader;
    }
    header := header + VideoHeader;
    ghost var prefix := header;
    AppendAssoc(RankHeader, "", "");
    assert prefix == (if isRanking then RankHeader else "") + VideoHeader;
    ghost var cells: seq<string> := [];
    var index := 0;
    while index < |keys|
      invariant 0 <= index <= |keys|
      invariant HeaderCells(keys[..index], isPercent, isCountDisplay) == Ok(cells)
      invariant header == prefix + Concat(cells)
    {
      var key := keys[index];
      var name := HeaderName(key, isPercent);
      HeaderCellsStep(keys, index, isPercent, isCountDisplay, cells, name);
      if name.Err? {
        return Err(name.error);
      }
      if !Hidden(key, isCountDisplay) {
        ConcatAppend(cells, HeaderCell(index, name.value));
        AppendAssoc(prefix, Concat(cells), HeaderCell(index, name.value));
        header := header + HeaderCell(index, name.value);
        cells := cells + [HeaderCell(index, name.value)];
      }
      index := index + 1;
    }
    assert keys[..index] == keys;
    header := header + RowEnd;
    return Ok(header);
  }

  /** One more key extends the header by its cell unless it is the hidden
      count column, or fails the whole header with `KeyError`. */
  lemma HeaderCellsStep(keys: seq<string>, k: nat, isPercent: bool, isCountDisplay: bool,
                        cells: seq<string>, name: Result<string>)
    requires k < |keys| && HeaderCells(keys[..k], isPercent, isCountDisplay) == Ok(cells)
    requires name == HeaderName(keys[k], isPercent)
    ensures name.Err? ==> HeaderCells(keys, isPercent, isCountDisplay) == Err(name.error)
    ensures name.Ok? ==>
      HeaderCells(keys[..k + 1], isPercent, isCountDisplay)
        == Ok(if Hidden(keys[k], isCountDisplay) then cells else cells + [HeaderCell(k, name.value)])
  {
    assert keys[..k + 1][..k] == keys[..k];
    if name.Err? {
      HeaderCellsKeepError(keys, k + 1, isPercent, isCountDisplay);
    }
  }

  /** A key missing from the registry fails the whole header. */
  lemma {:induction false} HeaderCellsKeepError(keys: seq<string>, k: nat, isPercent: bool, isCountDisplay: bool)
    requires k <= |keys| && HeaderCells(keys[..k], isPercent, isCountDisplay).Err?
    ensures HeaderCells(keys, isPercent, isCountDisplay) == HeaderCells(keys[..k], isPercent, isCountDisplay)
    decreases |keys| - k
  {
    if k < |keys| {
      var init := keys[..|keys| - 1];
      assert init[..k] == keys[..k];
      HeaderCellsKeepError(init, k, isPercent, isCountDisplay);
    } else {
      assert keys[..k] == keys;
    }
  }

  /** The ranking header only adds the RANK cell (and the row's opening tag)
      in front of the ordinary header. */
  lemma RankingHeaderAddsRank(keys: seq<string>, isPercent: bool, isCountDisplay: bool)
    ensures Header(keys, isPercent, isCountDisplay, true).Ok? <==> Header(keys, isPercent, isCountDisplay, false).Ok?
    ensures Header(keys, isPercent, isCountDisplay, true).Ok? ==>
      Header(keys, isPercent, isCountDisplay, true).value
        == RankHeader + Header(keys, isPercent, isCountDisplay, false).value
  {
    if HeaderCells(keys, isPercent, isCountDisplay).Ok? {
      var rest := Concat(HeaderCells(keys, isPercent, isCountDisplay).value);
      AppendAssoc(RankHeader, VideoHeader, rest);
      AppendAssoc(RankHeader, VideoHeader + rest, RowEnd);
      AppendAssoc(VideoHeader, rest, RowEnd);
    }
  }

  // ----- _create_table_data -----

  /** `_create_table_data(class_name, data)` for ordinary data: one cell. */
  function TableData(className: string, data: string): string
  {
    "<td class=\"" + className + "\">" + data + "</td>"
  }

  /** The video search link for a title. */
  function VideoLink(title: string): string
  {
    "<a href=\"https://www.youtube.com/results?search_query=" + title
      + "+sdvx\"><img src=\"https://zodiac-18.github.io/cs_exp01/jikken/img/yt_icon.png\" alt=\"動画\" width=\"24\" height=\"16\" border=\"0\"></a>"
  }

  /** The link from a title to its standard-score page. */
  function DataLink(title: string): string
  {
    "<a href=\"/?ss_music=" + title + "\" class=\"data\">" + title + "</a>"
  }

  /** `_create_table_data(class_name, data, is_music=True)`: the video cell
      and the title cell, as two pieces. */
  function MusicData(className: string, title: string): (cells: seq<string>)
    ensures |cells| == 2
  {
    [TableData("video", VideoLink(title)), TableData(className, DataLink(title))]
  }

  // ----- create_results_table -----

  /** `search_result[i]`, an `IndexError` past the end. */
  function Cell(row: seq<Value>, i: nat): (r: Result<Value>)
    ensures r.Ok? <==> i < |row|
    ensures r.Ok? ==> r.value == row[i]
  {
    if i < |row| then Ok(row[i]) else Err(IndexError)
  }

  /** The cells one key adds to a body row: two for the title, none for the
      hidden count column, one otherwise. An achievement column shows the
      achiever rate (and its colour class) against the count column
      `countIndex` when rates are asked for, the raw count otherwise. */
  function KeyCells(key: string, keyNumber: nat, row: seq<Value>, countIndex: nat,
                    isPercent: bool, isCountDisplay: bool): (r: Result<seq<string>>)
    ensures r.Ok? ==> |r.value| == if key == "music_title" then 2 else if Hidden(key, isCountDisplay) then 0 else 1
    ensures !Hidden(key, isCountDisplay) && keyNumber >= |row| ==> r == Err(IndexError)
  {
    if key == "music_title" then
      match Cell(row, keyNumber)
      case Err(e) => Err(e)
      case Ok(v) => Ok(MusicData("music_title", Str(v)))
    else if key == "difficulty_name" then
      match Cell(row, keyNumber)
      case Err(e) => Err(e)
      case Ok(v) => Ok([TableData("difficulty_" + Str(v), Str(v))])
    else if IsAchievement(key) then
      if isPercent then
        match Cell(row, keyNumber)
        case Err(e) => Err(e)
        case Ok(v) =>
          match Int(v)
          case Err(e) => Err(e)
          case Ok(achievers) =>
            match Cell(row, countIndex)
            case Err(e) => Err(e)
            case Ok(t) =>
              match Int(t)
              case Err(e) => Err(e)
              case Ok(total) =>
                var rate := CalculateAchieverRate(achievers, total);
                Ok([TableData(rate.cssClass, FloatText(rate.percent))])
      else
        match Cell(row, keyNumber)
        case Err(e) => Err(e)
        case Ok(v) => Ok([TableData(key, Str(v))])
    else if Hidden(key, isCountDisplay) then Ok([])
    else
      match Cell(row, keyNumber)
      case Err(e) => Err(e)
      case Ok(v) => Ok([TableData(key, Str(v))])
  }

  /** The number of cells a row has for `keys`: the title counts twice. */
  function RowWidth(keys: seq<string>, isCountDisplay: bool): nat
  {
    if |keys| == 0 then 0
    else
      var key := keys[|keys| - 1];
      RowWidth(keys[..|keys| - 1], isCountDisplay)
        + (if key == "music_title" then 2 else if Hidden(key, isCountDisplay) then 0 else 1)
  }

  /** The cells of one result row, key by key. */
  function RowCells(keys: seq<string>, row: seq<Value>, countIndex: nat,
                    isPercent: bool, isCountDisplay: bool): (r: Result<seq<string>>)
    ensures r.Ok? ==> |r.value| == RowWidth(keys, isCountDisplay)
  {
    if |keys| == 0 then Ok([])
    else
      match RowCells(keys[..|keys| - 1], row, countIndex, isPercent, isCountDisplay)
      case Err(e) => Err(e)
      case Ok(cells) =>
        match KeyCells(keys[|keys| - 1], |keys| - 1, row, countIndex, isPercent, isCountDisplay)
        case Err(e) => Err(e)
        case Ok(more) => Ok(cells + more)
  }

  /** The rank cell of the `n`-th row (from 0) of a ranking. */
  function RankCell(n: nat): string
  {
    "<td class=\"rank\">" + IntToString(n + 1) + "</td>\n"
  }

  /** The HTML of the `n`-th result row; `select_keys.index("count")` is
      evaluated first and raises `ValueError` without a count column. */
  function RowHtml(n: nat, keys: seq<string>, row: seq<Value>,
                   isPercent: bool, isCountDisplay: bool, isRanking: bool): (r: Result<string>)
    ensures "count" !in keys ==> r == Err(ValueError)
  {
    match IndexOf(keys, "count")
    case None => Err(ValueError)
    case Some(countIndex) =>
      match RowCells(keys, row, countIndex, isPercent, isCountDisplay)
      case Err(e) => Err(e)
      case Ok(cells) =>
        Ok("<tr>\n" + (if isRanking then RankCell(n) else "") + Concat(cells) + RowEnd)
  }

  /** The table body for the result rows, in order. */
  function TableBody(rows: seq<seq<Value>>, keys: seq<string>,
                     isPercent: bool, isCountDisplay: bool, isRanking: bool): Result<string>
  {
    if |rows| == 0 then Ok("")
    else match TableBody(rows[..|rows| - 1], keys, isPercent, isCountDisplay, isRanking)
      case Err(e) => Err(e)
      case Ok(body) =>
        match RowHtml(|rows| - 1, keys, rows[|rows| - 1], isPercent, isCountDisplay, isRanking)
        case Err(e) => Err(e)
        case Ok(html) => Ok(body + html)
  }

  /** `create_results_table(cur, sql, values, ...)` where the query returned
      `rows`: the header first, then the body. */
  function ResultsTable(rows: seq<seq<Value>>, keys: seq<string>,
                        isPercent: bool, isCountDisplay: bool, isRanking: bool): Result<(string, string)>
  {
    match Header(keys, isPercent, isCountDisplay, isRanking)
    case Err(e) => Err(e)
    case Ok(header) =>
      match TableBody(rows, keys, isPercent, isCountDisplay, isRanking)
      case Err(e) => Err(e)
      case Ok(body) => Ok((header, body))
  }

  /** The row loop of `create_results_table` over the rows the query returned. */
  method CreateResultsTable(rows: seq<seq<Value>>, keys: seq<string>,
                            isPercent: bool, isCountDisplay: bool, isRanking: bool)
    returns (r: Result<(string, string)>)
    ensures r == ResultsTable(rows, keys, isPercent, isCountDisplay, isRanking)
  {
    var header := CreateResultsHeader(keys, isPercent, isCountDisplay, isRanking);
    if header.Err? {
      return Err(header.error);
    }
    var resultsTable := "";
    var dataNumber := 0;
    while dataNumber < |rows|
      invariant 0 <= dataNumber <= |rows|
      invariant TableBody(rows[..dataNumber], keys, isPercent, isCountDisplay, isRanking) == Ok(resultsTable)
    {
      var line := CreateRow(dataNumber, keys, rows[dataNumber], isPercent, isCountDisplay, isRanking);
      TableBodyStep(rows, dataNumber, keys, isPercent, isCountDisplay, isRanking, resultsTable, line);
      if line.Err? {
        return Err(line.error);
      }
      resultsTable := resultsTable + line.value;
      dataNumber := dataNumber + 1;
    }
    assert rows[..dataNumber] == rows;
    return Ok((header.value, resultsTable));
  }

  /** One more row extends the body by its HTML, or fails the whole table
      with what it raises. */
  lemma TableBodyStep(rows: seq<seq<Value>>, k: nat, keys: seq<string>, isPercent: bool, isCountDisplay: bool,
                      isRanking: bool, body: string, line: Result<string>)
    requires k < |rows| && TableBody(rows[..k], keys, isPercent, isCountDisplay, isRanking) == Ok(body)
    requires line == RowHtml(k, keys, rows[k], isPercent, isCountDisplay, isRanking)
    ensures line.Err? ==> TableBody(rows, keys, isPercent, isCountDisplay, isRanking) == Err(line.error)
    ensures line.Ok? ==> TableBody(rows[..k + 1], keys, isPercent, isCountDisplay, isRanking) == Ok(body + line.value)
  {
    assert rows[..k + 1][..k] == rows[..k];
    if line.Err? {
      TableBodyKeepsError(rows, k + 1, keys, isPercent, isCountDisplay, isRanking);
    }
  }

  /** The body of the row loop: one `<tr>` row, or the exception it raises. */
  method CreateRow(dataNumber: nat, keys: seq<string>, searchResult: seq<Value>,
                   isPercent: bool, isCountDisplay: bool, isRanking: bool) returns (r: Result<string>)
    ensures r == RowHtml(dataNumber, keys, searchResult, isPercent, isCountDisplay, isRanking)
  {
    var line := "<tr>\n";
    var countIndex := IndexOf(keys, "count");
    if countIndex.None? {
      return Err(ValueError);
    }
    if isRanking {
      line := line + RankCell(dataNumber);
    }
    AppendAssoc("<tr>\n", "", "");
    assert line == "<tr>\n" + (if isRanking then RankCell(dataNumber) else "");
    var cells := CreateRowCells(keys, searchResult, countIndex.value, isPercent, isCountDisplay);
    if cells.Err? {
      return Err(cells.error);
    }
    line := line + cells.value + RowEnd;
    return Ok(line);
  }

  /** The key loop of one row: the text of its cells. */
  method CreateRowCells(keys: seq<string>, row: seq<Value>, countIndex: nat,
                        isPercent: bool, isCountDisplay: bool) returns (r: Result<string>)
    ensures r == match RowCells(keys, row, countIndex, isPercent, isCountDisplay)
      case Ok(cells) => Ok(Concat(cells))
      case Err(e) => Err(e)
  {
    var text := "";
    ghost var cells: seq<string> := [];
    var keyNumber := 0;
    while keyNumber < |keys|
      invariant 0 <= keyNumber <= |keys|
      invariant RowCells(keys[..keyNumber], row, countIndex, isPercent, isCountDisplay) == Ok(cells)
      invariant text == Concat(cells)
    {
      var next;
      ghost var nextCells;
      next, nextCells := AddKeyCells(keys, keyNumber, row, countIndex, isPercent, isCountDisplay, text, cells);
      if next.Err? {
        return Err(next.error);
      }
      text, cells := next.value, nextCells;
      keyNumber := keyNumber + 1;
    }
    assert keys[..keyNumber] == keys;
    return Ok(text);
  }

  /** One pass of the key loop: the row's text extended by the cells of
      `keys[k]`, or what that key raises, which fails the whole row. */
  method AddKeyCells(keys: seq<string>, k: nat, row: seq<Value>, countIndex: nat,
                     isPercent: bool, isCountDisplay: bool, text: string, ghost cells: seq<string>)
    returns (r: Result<string>, ghost next: seq<string>)
    requires k < |keys| && RowCells(keys[..k], row, countIndex, isPercent, isCountDisplay) == Ok(cells)
    requires text == Concat(cells)
    ensures r.Err? ==> RowCells(keys, row, countIndex, isPercent, isCountDisplay) == Err(r.error)
    ensures r.Ok? ==>
      RowCells(keys[..k + 1], row, countIndex, isPercent, isCountDisplay) == Ok(next) && r.value == Concat(next)
  {
    assert keys[..k + 1][..k] == keys[..k];
    var more := KeyCells(keys[k], k, row, countIndex, isPercent, isCountDisplay);
    if more.Err? {
      RowCellsKeepError(keys, k + 1, row, countIndex, isPercent, isCountDisplay);
      return Err(more.error), cells;
    }
    ConcatAll(cells, more.value);
    return Ok(text + Concat(more.value)), cells + more.value;
  }

  lemma {:induction false} ConcatAll(a: seq<string>, b: seq<string>)
    ensures Concat(a + b) == Concat(a) + Concat(b)
    decreases |b|
  {
    if |b| > 0 {
      var init := b[..|b| - 1];
      assert a + b == (a + init) + [b[|b| - 1]];
      ConcatAll(a, init);
      ConcatAppend(a + init, b[|b| - 1]);
      ConcatAppend(init, b[|b| - 1]);
      assert init + [b[|b| - 1]] == b;
    } else {
      assert a + b == a;
    }
  }

  lemma {:induction false} RowCellsKeepError(keys: seq<string>, k: nat, row: seq<Value>, countIndex: nat,
                                             isPercent: bool, isCountDisplay: bool)
    requires k <= |keys| && RowCells(keys[..k], row, countIndex, isPercent, isCountDisplay).Err?
    ensures RowCells(keys, row, countIndex, isPercent, isCountDisplay)
         == RowCells(keys[..k], row, countIndex, isPercent, isCountDisplay)
    decreases |keys| - k
  {
    if k < |keys| {
      var init := keys[..|keys| - 1];
      assert init[..k] == keys[..k];
      RowCellsKeepError(init, k, row, countIndex, isPercent, isCountDisplay);
    } else {
      assert keys[..k] == keys;
    }
  }

  lemma {:induction false} TableBodyKeepsError(rows: seq<seq<Value>>, k: nat, keys: seq<string>,
                                               isPercent: bool, isCountDisplay: bool, isRanking: bool)
    requires k <= |rows| && TableBody(rows[..k], keys, isPercent, isCountDisplay, isRanking).Err?
    ensures TableBody(rows, keys, isPercent, isCountDisplay, isRanking)
         == TableBody(rows[..k], keys, isPercent, isCountDisplay, isRanking)
    decreases |rows| - k
  {
    if k < |rows| {
      var init := rows[..|rows| - 1];
      assert init[..k] == rows[..k];
      TableBodyKeepsError(init, k, keys, isPercent, isCountDisplay, isRanking);
    } else {
      assert rows[..k] == rows;
    }
  }

  // ----- what the table promises -----

  /** Header and body line up: a body row has one cell more than the header
      row has key cells for each time the title column occurs, and the
      header has the one video cell; so with one title column every body
      row has exactly as many cells as the header. */
  lemma {:induction false} HeaderAndRowAgree(keys: seq<string>, row: seq<Value>, countIndex: nat,
                                             isPercent: bool, isCountDisplay: bool)
    requires HeaderCells(keys, isPercent, isCountDisplay).Ok?
    requires RowCells(keys, row, countIndex, isPercent, isCountDisplay).Ok?
    ensures |RowCells(keys, row, countIndex, isPercent, isCountDisplay).value|
         == |HeaderCells(keys, isPercent, isCountDisplay).value| + Occurrences(keys, "music_title")
    ensures Occurrences(keys, "music_title") == 1 ==>
      |RowCells(keys, row, countIndex, isPercent, isCountDisplay).value|
        == 1 + |HeaderCells(keys, isPercent, isCountDisplay).value|
  {
    WidthIsShownPlusTitles(keys, isCountDisplay);
  }

  lemma {:induction false} WidthIsShownPlusTitles(keys: seq<string>, isCountDisplay: bool)
    ensures RowWidth(keys, isCountDisplay) == ShownCount(keys, isCountDisplay) + Occurrences(keys, "music_title")
  {
    if |keys| > 0 {
      WidthIsShownPlusTitles(keys[..|keys| - 1], isCountDisplay);
    }
  }

  /** The header shows every key but the count column when it is hidden. */
  lemma {:induction false} ShownCountDropsCount(keys: seq<string>, isCountDisplay: bool)
    ensures ShownCount(keys, isCountDisplay)
         == |keys| - (if isCountDisplay then 0 else Occurrences(keys, "count"))
  {
    if |keys| > 0 {
      ShownCountDropsCount(keys[..|keys| - 1], isCountDisplay);
    }
  }

  /** Without a count column every non-empty result fails with `ValueError`;
      an empty result never looks the count column up. */
  lemma CountColumnNeeded(rows: seq<seq<Value>>, keys: seq<string>,
                          isPercent: bool, isCountDisplay: bool, isRanking: bool)
    requires "count" !in keys
    ensures rows == [] ==> TableBody(rows, keys, isPercent, isCountDisplay, isRanking) == Ok("")
    ensures rows != [] ==> TableBody(rows, keys, isPercent, isCountDisplay, isRanking) == Err(ValueError)
  {
    if rows != [] {
      var first := rows[..1];
      assert first[..0] == [];
      assert TableBody(first, keys, isPercent, isCountDisplay, isRanking) == Err(ValueError);
      TableBodyKeepsError(rows, 1, keys, isPercent, isCountDisplay, isRanking);
    }
  }

  /** With rates asked for, an achievement cell shows the rate of its column
      against the count column, with the rate's colour class. */
  lemma AchievementCellIsRate(key: string, keyNumber: nat, row: seq<Value>, countIndex: nat,
                              isCountDisplay: bool)
    requires IsAchievement(key)
    requires keyNumber < |row| && countIndex < |row|
    requires Int(row[keyNumber]).Ok? && Int(row[countIndex]).Ok?
    ensures var rate := CalculateAchieverRate(Int(row[keyNumber]).value, Int(row[countIndex]).value);
      && KeyCells(key, keyNumber, row, countIndex, true, isCountDisplay)
         == Ok([TableData(rate.cssClass, FloatText(rate.percent))])
      && rate.cssClass == RateClass(rate.percent.milli)
  {
    assert key != "music_title" && key != "difficulty_name" by {
      AchievementGroups();
      RequiredAreDisplayed();
      assert "music_title" in RequiredColumns && "difficulty_name" in RequiredColumns;
    }
  }

  /** With counts asked for, an achievement cell shows the stored count, with
      the column key as its class. */
  lemma AchievementCellIsCount(key: string, keyNumber: nat, row: seq<Value>, countIndex: nat,
                               isCountDisplay: bool)
    requires IsAchievement(key)
    requires keyNumber < |row|
    ensures KeyCells(key, keyNumber, row, countIndex, false, isCountDisplay)
         == Ok([TableData(key, Str(row[keyNumber]))])
  {
    assert key != "music_title" && key != "difficulty_name" by {
      AchievementGroups();
      RequiredAreDisplayed();
      assert "music_title" in RequiredColumns && "difficulty_name" in RequiredColumns;
    }
  }

  /** The hidden count column is never read, so a row too short to hold it
      still renders. */
  lemma HiddenCountNotRead(keyNumber: nat, row: seq<Value>, countIndex: nat, isPercent: bool)
    ensures KeyCells("count", keyNumber, row, countIndex, isPercent, false) == Ok([])
  {
    assert !IsAchievement("count") by {
      RequiredAreDisplayed();
      assert "count" in RequiredColumns;
    }
  }

  // ----- create_deviation_score_results -----

  /** The line that reports a rounded standard score. */
  function DeviationText(x: Rounded): string
  {
    "<h3>偏差値は" + FloatText(x) + "です。</h3>\n"
  }

  /** `create_deviation_score_results(ss_score, sd_score, avg_score)`: the
      validation message, or the standard score of the submitted score. */
  function CreateDeviationScoreResults(score: string, sd: Value, avg: Value): (r: Result<string>)
    ensures !ScoreAccepted(score) ==> r == Ok(ValidateSsScore(score).message)
    ensures ScoreAccepted(score) && Int(sd) == Ok(0) ==> r == Ok(NoDataMessage)
    ensures r.Err? <==> ScoreAccepted(score) && (Int(sd).Err? || (Int(sd).value != 0 && Int(avg).Err?))
    ensures ScoreAccepted(score) && Int(sd).Ok? && Int(sd).value != 0 && Int(avg).Ok? ==>
      r == Ok(DeviationText(CalculateDeviation(Text(score), avg, sd).value))
  {
    match ValidateScore(score, sd)
    case Err(e) => Err(e)
    case Ok(verdict) =>
      if verdict.valid then
        match CalculateDeviation(Text(score), avg, sd)
        case Err(e) => Err(e)
        case Ok(d) => Ok(DeviationText(d))
      else Ok(verdict.message)
  }

  /** A score one deviation above the mean reads "60.0". */
  lemma DeviationResultExample()
    ensures CreateDeviationScoreResults("9500000", Integer(500000), Integer(9000000))
         == Ok("<h3>偏差値は60.0です。</h3>\n")
  {
    NineAndAHalfMillion();
    assert ValidateScore("9500000", Integer(500000)) == Ok(Verdict(true, ""));
    DeviationOfExample();
    Sixty();
  }

  lemma NineAndAHalfMillion()
    ensures ParseInt("9500000") == Some(9500000)
  {
    ParseIntToString(9500000);
    assert IntToString(9500000) == "9500000";
  }

  lemma DeviationOfExample()
    ensures CalculateDeviation(Text("9500000"), Integer(9000000), Integer(500000)) == Ok(Rounded(60000, false))
  {
    NineAndAHalfMillion();
    assert RoundDiv(500000 * 10000 + 50000 * 500000, 500000) == 60000;
  }

  lemma Sixty()
    ensures DeviationText(Rounded(60000, false)) == "<h3>偏差値は60.0です。</h3>\n"
  {
    assert NatToString(60) == "60";
    assert FormatMilli(60000) == "60.0";
  }

  /** A score a hair below 50 rounds to zero thousandths but keeps its sign,
      so the page reads "-0.0". */
  lemma NegativeZeroDeviation()
    ensures CreateDeviationScoreResults("0", Integer(1800000), Integer(9000001))
         == Ok("<h3>偏差値は-0.0です。</h3>\n")
  {
    ZeroParses();
    assert ValidateScore("0", Integer(1800000)) == Ok(Verdict(true, ""));
    DeviationJustBelowFifty();
    assert DeviationText(Rounded(0, true)) == "<h3>偏差値は-0.0です。</h3>\n";
  }

  lemma ZeroParses()
    ensures ParseInt("0") == Some(0)
  {
    ParseIntToString(0);
    assert IntToString(0) == "0";
  }

  lemma DeviationJustBelowFifty()
    ensures CalculateDeviation(Text("0"), Integer(9000001), Integer(1800000)) == Ok(Rounded(0, true))
  {
    ZeroParses();
    assert RoundDiv(-9000001 * 10000 + 50000 * 1800000, 1800000) == 0;
  }
}
