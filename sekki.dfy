/**
 * The 24 solar terms (sekki) and the season they colour: the term table,
 * the three-year timeline of start dates, the term in force at a moment,
 * the transition towards the next term and the style blended from both.
 * A moment is a local date-time (Civil.LocalTime); the exact-date table
 * read from the application's JSON file is a parameter.
 */
module Sekki {
  import opened Js
  import opened Civil
  import opened Sorting
  import opened SekkiColor

  // ---------------------------------------------------------------------
  // The term table
  // ---------------------------------------------------------------------

  /** The canvas effect a term shows. */
  datatype AnimationType = Particle | Wave | Flare | HeatHaze | Crystal | Breath

  /** The background gradient: two colours and an angle in degrees. */
  datatype Gradient = Gradient(color1: string, color2: string, angle: int)

  /** One solar term; startMonth counts from 1. */
  datatype SekkiData = SekkiData(
    name: string,
    reading: string,
    description: string,
    startMonth: int,
    startDay: int,
    bgGradient: Gradient,
    animationType: AnimationType,
    cardBorderColor: string,
    cardShadowColor: string)

  const RISSHUN: SekkiData := SekkiData("立春", "りっしゅん", "春の気配が立ち始める頃", 2, 4, Gradient("#8B9DC3", "#6B7FA0", 160), Breath,
              "rgba(255,182,193,0.15)", "rgba(139,157,195,0.25)")

  const USUI: SekkiData := SekkiData("雨水", "うすい", "雪が雨に変わり、氷が溶け始める頃", 2, 19, Gradient("#9B8FB4", "#7D7399", 160), Particle,
              "rgba(155,143,180,0.15)", "rgba(125,115,153,0.25)")

  const KEICHITSU: SekkiData := SekkiData("啓蟄", "けいちつ", "冬眠していた虫たちが目を覚ます頃", 3, 5, Gradient("#A8988A", "#C8B8A0", 160), Breath,
              "rgba(168,152,138,0.15)", "rgba(200,184,160,0.25)")

  const SHUNBUN: SekkiData := SekkiData("春分", "しゅんぶん", "昼と夜の長さがほぼ等しくなる頃", 3, 20, Gradient("#D4B8A0", "#E8C8B8", 150), Flare,
              "rgba(212,184,160,0.15)", "rgba(232,200,184,0.25)")

  const SEIMEI: SekkiData := SekkiData("清明", "せいめい", "すべてのものが清らかで生き生きする頃", 4, 4, Gradient("#F5C6D0", "#FDDDE6", 160), Particle,
              "rgba(245,198,208,0.2)", "rgba(253,221,230,0.3)")

  const KOKUU: SekkiData := SekkiData("穀雨", "こくう", "穀物を潤す春の雨が降る頃", 4, 20, Gradient("#A8D8A8", "#C8E8B8", 150), Particle,
              "rgba(168,216,168,0.15)", "rgba(200,232,184,0.25)")

  const RIKKA: SekkiData := SekkiData("立夏", "りっか", "夏の気配が立ち始める頃", 5, 5, Gradient("#A0D8D0", "#B8E8E0", 140), Wave,
              "rgba(160,216,208,0.15)", "rgba(184,232,224,0.25)")

  const SHOMAN: SekkiData := SekkiData("小満", "しょうまん", "草木が茂り、万物が満ち始める頃", 5, 21, Gradient("#6DB070", "#88C488", 160), Breath,
              "rgba(109,176,112,0.15)", "rgba(136,196,136,0.25)")

  const BOSHU: SekkiData := SekkiData("芒種", "ぼうしゅ", "稲や麦などの種を蒔く頃", 6, 5, Gradient("#8BA898", "#A0B8A8", 170), Particle,
              "rgba(139,168,152,0.15)", "rgba(160,184,168,0.25)")

  const GESHI: SekkiData := SekkiData("夏至", "げし", "一年で最も昼が長くなる頃", 6, 21, Gradient("#8898A8", "#A0A8B8", 170), Particle,
              "rgba(136,152,168,0.15)", "rgba(160,168,184,0.25)")

  const SHOUSHO: SekkiData := SekkiData("小暑", "しょうしょ", "暑さが本格的になり始める頃", 7, 7, Gradient("#F0A830", "#F8C040", 140), HeatHaze,
              "rgba(240,168,48,0.15)", "rgba(248,192,64,0.25)")

  const TAISHO: SekkiData := SekkiData("大暑", "たいしょ", "一年で最も暑さが厳しい頃", 7, 22, Gradient("#E88020", "#F09830", 140), HeatHaze,
              "rgba(232,128,32,0.15)", "rgba(240,152,48,0.25)")

  const RISSHU: SekkiData := SekkiData("立秋", "りっしゅう", "秋の気配が立ち始める頃", 8, 7, Gradient("#E89060", "#F0A870", 150), HeatHaze,
              "rgba(232,144,96,0.15)", "rgba(240,168,112,0.25)")

  const SHOSHO: SekkiData := SekkiData("処暑", "しょしょ", "暑さが和らぎ始める頃", 8, 23, Gradient("#D8A080", "#E8B898", 155), Particle,
              "rgba(216,160,128,0.15)", "rgba(232,184,152,0.25)")

  const HAKURO: SekkiData := SekkiData("白露", "はくろ", "草花に朝露が宿り始める頃", 9, 7, Gradient("#D8D0C8", "#E8E0D8", 150), Flare,
              "rgba(216,208,200,0.15)", "rgba(232,224,216,0.25)")

  const SHUUBUN: SekkiData := SekkiData("秋分", "しゅうぶん", "昼と夜の長さがほぼ等しくなる頃", 9, 22, Gradient("#B8A890", "#D0B898", 160), Wave,
              "rgba(184,168,144,0.15)", "rgba(208,184,152,0.25)")

  const KANRO: SekkiData := SekkiData("寒露", "かんろ", "露が冷たく感じられる頃", 10, 8, Gradient("#D4A830", "#E8C040", 145), Particle,
              "rgba(212,168,48,0.2)", "rgba(232,192,64,0.3)")

  const SOKO: SekkiData := SekkiData("霜降", "そうこう", "霜が降り始める頃", 10, 23, Gradient("#A03040", "#B84858", 160), Particle,
              "rgba(160,48,64,0.15)", "rgba(184,72,88,0.25)")

  const RITTO: SekkiData := SekkiData("立冬", "りっとう", "冬の気配が立ち始める頃", 11, 7, Gradient("#8B5060", "#A06878", 160), Particle,
              "rgba(139,80,96,0.15)", "rgba(160,104,120,0.25)")

  const SHOSETSU: SekkiData := SekkiData("小雪", "しょうせつ", "わずかに雪が降り始める頃", 11, 22, Gradient("#708090", "#8898A8", 165), Particle,
              "rgba(112,128,144,0.15)", "rgba(136,152,168,0.25)")

  const TAISETSU: SekkiData := SekkiData("大雪", "たいせつ", "本格的に雪が降り積もる頃", 12, 7, Gradient("#6878A0", "#8090B0", 170), Particle,
              "rgba(104,120,160,0.15)", "rgba(128,144,176,0.25)")

  const TOJI: SekkiData := SekkiData("冬至", "とうじ", "一年で最も夜が長くなる頃", 12, 21, Gradient("#1A2040", "#283058", 180), Particle,
              "rgba(26,32,64,0.15)", "rgba(40,48,88,0.3)")

  const SHOKAN: SekkiData := SekkiData("小寒", "しょうかん", "寒さが一段と厳しくなる頃", 1, 5, Gradient("#B0C8E0", "#C8D8F0", 170), Crystal,
              "rgba(176,200,224,0.15)", "rgba(200,216,240,0.25)")

  const DAIKAN: SekkiData := SekkiData("大寒", "だいかん", "一年で最も寒さが厳しい頃", 1, 20, Gradient("#D8E0E8", "#E8EFF5", 170), Crystal,
              "rgba(216,224,232,0.15)", "rgba(232,239,245,0.25)")

  /** The terms in the order of the table, from 立春. */
  const SEKKI_DATA: seq<SekkiData> := [
    RISSHUN, USUI, KEICHITSU, SHUNBUN, SEIMEI, KOKUU,
    RIKKA, SHOMAN, BOSHU, GESHI, SHOUSHO, TAISHO,
    RISSHU, SHOSHO, HAKURO, SHUUBUN, KANRO, SOKO,
    RITTO, SHOSETSU, TAISETSU, TOJI, SHOKAN, DAIKAN
  ]

  /** The terms in calendar-year order, from 小寒 in January. */
  const SEKKI_CALENDAR_ORDER: seq<string> := [
    "小寒", "大寒", "立春", "雨水", "啓蟄", "春分",
    "清明", "穀雨", "立夏", "小満", "芒種", "夏至",
    "小暑", "大暑", "立秋", "処暑", "白露", "秋分",
    "寒露", "霜降", "立冬", "小雪", "大雪", "冬至"
  ]

  /**
   * sekkiByName.get(name): the Map built from a term table's entries, where
   * a later entry with the same name replaces an earlier one, so the
   * search runs from the end. The timeline below is stated for any term
   * table; the application's is SEKKI_DATA.
   */
  function Lookup(terms: seq<SekkiData>, name: string): (r: Option<SekkiData>)
    ensures r.Some? ==> r.value in terms && r.value.name == name
  {
    LookupBelow(terms, name, |terms|)
  }

  /** The last of the first n entries with that name. */
  function LookupBelow(terms: seq<SekkiData>, name: string, n: nat): (r: Option<SekkiData>)
    requires n <= |terms|
    ensures r.Some? ==> r.value in terms && r.value.name == name
  {
    if n == 0 then None
    else if terms[n - 1].name == name then Some(terms[n - 1])
    else LookupBelow(terms, name, n - 1)
  }

  /** The table knows every name of the list. */
  predicate KnowsAll(terms: seq<SekkiData>, names: seq<string>)
  {
    forall i | 0 <= i < |names| :: Lookup(terms, names[i]).Some?
  }

  /** A name the table holds at some index is known. */
  lemma KnownAt(terms: seq<SekkiData>, names: seq<string>, i: nat, k: nat)
    requires i < |names| && k < |terms| && terms[k].name == names[i]
    ensures Lookup(terms, names[i]).Some?
  {
    KnownBelow(terms, names[i], k, |terms|);
  }

  lemma {:induction false} KnownBelow(terms: seq<SekkiData>, name: string, k: nat, n: nat)
    requires k < n <= |terms| && terms[k].name == name
    ensures LookupBelow(terms, name, n).Some?
  {
    if terms[n - 1].name != name {
      KnownBelow(terms, name, k, n - 1);
    }
  }

  /** 小寒 and 大寒, the last two entries of the table, open the calendar order. */
  lemma OrderHead()
    ensures forall i | 0 <= i < 2 :: SEKKI_DATA[i + 22].name == SEKKI_CALENDAR_ORDER[i]
  {
  }

  /** The other 22 names follow the table order from 立春 on. */
  lemma OrderTail()
    ensures forall i | 2 <= i < 24 :: SEKKI_DATA[i - 2].name == SEKKI_CALENDAR_ORDER[i]
  {
  }

  /**
   * A name list that is the table's names with the last `cut` of them moved
   * to the front is known.
   */
  lemma KnowsRotation(terms: seq<SekkiData>, names: seq<string>, cut: nat)
    requires cut <= |terms| && |names| == |terms|
    requires forall i | 0 <= i < cut :: terms[i + |terms| - cut].name == names[i]
    requires forall i | cut <= i < |names| :: terms[i - cut].name == names[i]
    ensures KnowsAll(terms, names)
  {
    forall i | 0 <= i < |names|
      ensures Lookup(terms, names[i]).Some?
    {
      if i < cut {
        KnownAt(terms, names, i, i + |terms| - cut);
      } else {
        KnownAt(terms, names, i, i - cut);
      }
    }
  }

  /** Every name of the calendar order has an entry in the term table. */
  lemma OrderNamesKnown()
    ensures |SEKKI_CALENDAR_ORDER| == 24
    ensures KnowsAll(SEKKI_DATA, SEKKI_CALENDAR_ORDER)
  {
    OrderHead();
    OrderTail();
    KnowsRotation(SEKKI_DATA, SEKKI_CALENDAR_ORDER, 2);
  }

  /** Every nominal start is a month 1..12 and a day that every month has. */
  predicate NominalStart(data: SekkiData)
  {
    1 <= data.startMonth <= 12 && 1 <= data.startDay <= 28
  }

  predicate NominalStarts(terms: seq<SekkiData>)
  {
    forall k | 0 <= k < |terms| :: NominalStart(terms[k])
  }

  lemma NominalStartsValid()
    ensures NominalStarts(SEKKI_DATA)
  {
  }

  // ---------------------------------------------------------------------
  // Start dates
  // ---------------------------------------------------------------------

  /**
   * The exact-date table: for a year, the term names it lists and the local
   * date each of them starts on (the "YYYY-MM-DD" strings already read).
   */
  type DateTable = map<int, map<string, ValidDate>>

  /**
   * getSekkiDate: the table's date when the table lists the term for that
   * year; otherwise new Date(year, startMonth - 1, startDay); for a name
   * the term table does not know, new Date(year, 0, 1).
   */
  function GetSekkiDate(table: DateTable, terms: seq<SekkiData>, name: string, year: int): (d: ValidDate)
    ensures year in table && name in table[year] ==> d == table[year][name]
  {
    if year in table && name in table[year] then table[year][name]
    else
      match Lookup(terms, name)
      case None => MakeDate(year, 0, 1)
      case Some(data) => MakeDate(year, data.startMonth - 1, data.startDay)
  }

  /**
   * Without a table entry the date is the term's nominal start in that very
   * year, or 1 January for an unknown name; the constructor's reading of
   * years 0..99 as 1900..1999 is the one exception.
   */
  lemma SekkiDateFallback(table: DateTable, terms: seq<SekkiData>, name: string, year: int)
    requires NominalStarts(terms)
    requires !(year in table && name in table[year])
    requires year < 0 || year > 99
    ensures Lookup(terms, name).Some? ==>
              var data := Lookup(terms, name).value;
              GetSekkiDate(table, terms, name, year) == Date(year, data.startMonth - 1, data.startDay)
    ensures Lookup(terms, name).None? ==> GetSekkiDate(table, terms, name, year) == Date(year, 0, 1)
  {
    if Lookup(terms, name).Some? {
      var data := Lookup(terms, name).value;
      var k :| 0 <= k < |terms| && terms[k] == data;
      assert 0 <= data.startMonth - 1 < 12 && 1 <= data.startDay <= 28;
    }
  }

  // ---------------------------------------------------------------------
  // The timeline
  // ---------------------------------------------------------------------

  /** A timeline entry: a term and the date it starts on in one year. */
  datatype Entry = Entry(name: string, date: ValidDate, data: SekkiData)

  /** date.getTime() of the entry: local midnight of its start date. */
  function StartMs(e: Entry): int
  {
    MidnightMs(e.date)
  }

  /** The timeline comparator a.date.getTime() - b.date.getTime() is <= 0. */
  predicate NotLater(a: Entry, b: Entry)
  {
    StartMs(a) <= StartMs(b)
  }

  lemma NotLaterIsTotalPreorder()
    ensures TotalPreorder(NotLater)
  {
  }

  /**
   * The entries pushed for one year, in the order of `names`; a name the
   * term table does not know is skipped.
   */
  function YearEntries(table: DateTable, terms: seq<SekkiData>, year: int, names: seq<string>): (r: seq<Entry>)
    ensures |r| <= |names|
  {
    if names == [] then []
    else
      var init := YearEntries(table, terms, year, names[..|names| - 1]);
      var name := names[|names| - 1];
      match Lookup(terms, name)
      case None => init
      case Some(data) => init + [Entry(name, GetSekkiDate(table, terms, name, year), data)]
  }

  /** The entries pushed for `count` years from `first` on, year after year. */
  function EntriesFrom(table: DateTable, terms: seq<SekkiData>, first: int, count: nat, names: seq<string>): seq<Entry>
  {
    if count == 0 then []
    else EntriesFrom(table, terms, first, count - 1, names) + YearEntries(table, terms, first + count - 1, names)
  }

  /** A name the term table knows yields one entry per year. */
  lemma {:induction false} YearEntriesLength(table: DateTable, terms: seq<SekkiData>, year: int, names: seq<string>)
    requires KnowsAll(terms, names)
    ensures |YearEntries(table, terms, year, names)| == |names|
  {
    if names != [] {
      var init := names[..|names| - 1];
      assert KnowsAll(terms, init) by {
        forall i | 0 <= i < |init|
          ensures Lookup(terms, init[i]).Some?
        {
          assert init[i] == names[i];
        }
      }
      YearEntriesLength(table, terms, year, init);
      assert Lookup(terms, names[|names| - 1]).Some?;
    }
  }

  /** buildTimeline's result: the three years' entries sorted by start time, stably. */
  function Timeline(table: DateTable, terms: seq<SekkiData>, names: seq<string>, year: int): seq<Entry>
  {
    NotLaterIsTotalPreorder();
    Sort(EntriesFrom(table, terms, year - 1, 3, names), NotLater)
  }

  /** The three years' entries, one after the other. */
  lemma EntriesSplit(table: DateTable, terms: seq<SekkiData>, year: int, names: seq<string>)
    ensures EntriesFrom(table, terms, year - 1, 3, names)
            == YearEntries(table, terms, year - 1, names)
               + YearEntries(table, terms, year, names)
               + YearEntries(table, terms, year + 1, names)
  {
    assert EntriesFrom(table, terms, year - 1, 1, names) == YearEntries(table, terms, year - 1, names);
  }

  /**
   * When the term table knows every name of the list, the timeline holds
   * the named terms of each of the three years, each dated by getSekkiDate,
   * in non-decreasing order of start time.
   */
  lemma TimelineShape(table: DateTable, terms: seq<SekkiData>, names: seq<string>, year: int)
    requires KnowsAll(terms, names)
    ensures |Timeline(table, terms, names, year)| == 3 * |names|
    ensures SortedBy(Timeline(table, terms, names, year), NotLater)
    ensures multiset(Timeline(table, terms, names, year))
            == multiset(YearEntries(table, terms, year - 1, names))
               + multiset(YearEntries(table, terms, year, names))
               + multiset(YearEntries(table, terms, year + 1, names))
  {
    NotLaterIsTotalPreorder();
    EntriesSplit(table, terms, year, names);
    YearEntriesLength(table, terms, year - 1, names);
    YearEntriesLength(table, terms, year, names);
    YearEntriesLength(table, terms, year + 1, names);
  }

  /** One more name adds its entry, if the term table knows it. */
  lemma YearEntriesStep(table: DateTable, terms: seq<SekkiData>, year: int, names: seq<string>, n: nat)
    requires n < |names|
    ensures var name := names[n];
            YearEntries(table, terms, year, names[..n + 1])
            == YearEntries(table, terms, year, names[..n])
               + (match Lookup(terms, name)
                  case None => []
                  case Some(data) => [Entry(name, GetSekkiDate(table, terms, name, year), data)])
  {
    assert names[..n + 1][..n] == names[..n];
  }

  /**
   * The inner loop of buildTimeline: push, for each name in turn, the term
   * with its start date in `year`, skipping a name the term table does not know.
   */
  method PushYear(table: DateTable, terms: seq<SekkiData>, year: int, names: seq<string>, timeline: seq<Entry>)
    returns (r: seq<Entry>)
    ensures r == timeline + YearEntries(table, terms, year, names)
  {
    r := timeline;
    for n := 0 to |names|
      invariant r == timeline + YearEntries(table, terms, year, names[..n])
    {
      var name := names[n];
      var data := Lookup(terms, name);
      if data.Some? {
        r := r + [Entry(name, GetSekkiDate(table, terms, name, year), data.value)];
      }
      assert r == timeline + YearEntries(table, terms, year, names[..n + 1]) by {
        YearEntriesStep(table, terms, year, names, n);
      }
    }
    assert names[..|names|] == names;
  }

  /**
   * buildTimeline: for each of the three years and each name of the
   * calendar order, push the term with its start date; then sort by start.
   */
  method BuildTimeline(table: DateTable, terms: seq<SekkiData>, names: seq<string>, date: Date)
    returns (timeline: seq<Entry>)
    ensures timeline == Timeline(table, terms, names, date.year)
  {
    var year := date.year;
    timeline := [];
    for yr := year - 1 to year + 2
      invariant timeline == EntriesFrom(table, terms, year - 1, yr - (year - 1), names)
    {
      timeline := PushYear(table, terms, yr, names, timeline);
    }
    NotLaterIsTotalPreorder();
    timeline := Sort(timeline, NotLater);
  }

  /** The application's timeline around a year: SEKKI_DATA in the calendar order. */
  function SekkiTimeline(table: DateTable, year: int): (timeline: seq<Entry>)
    ensures |timeline| == 72
    ensures SortedBy(timeline, NotLater)
  {
    OrderNamesKnown();
    TimelineShape(table, SEKKI_DATA, SEKKI_CALENDAR_ORDER, year);
    Timeline(table, SEKKI_DATA, SEKKI_CALENDAR_ORDER, year)
  }

  // ---------------------------------------------------------------------
  // The current term
  // ---------------------------------------------------------------------

  /** How many entries from the front have started by `now`: the scan stops at the first later one. */
  function StartedCount(timeline: seq<Entry>, now: int): (n: nat)
    ensures n <= |timeline|
    ensures forall k | 0 <= k < n :: StartMs(timeline[k]) <= now
    ensures n < |timeline| ==> StartMs(timeline[n]) > now
  {
    if timeline == [] || StartMs(timeline[0]) > now then 0
    else 1 + StartedCount(timeline[1..], now)
  }

  /** The index the scan settles on: the last started entry, or the first entry when none has. */
  function CurrentIndex(timeline: seq<Entry>, now: int): (i: nat)
    requires |timeline| > 0
    ensures i < |timeline|
  {
    var n := StartedCount(timeline, now);
    if n == 0 then 0 else n - 1
  }

  /**
   * On a timeline sorted by start, the current entry is the most recent one
   * that has started: it has started (when any has) and every later entry
   * starts after `now`.
   */
  lemma CurrentIsLatestStarted(timeline: seq<Entry>, now: int)
    requires |timeline| > 0 && SortedBy(timeline, NotLater)
    ensures StartMs(timeline[0]) <= now ==> StartMs(timeline[CurrentIndex(timeline, now)]) <= now
    ensures forall j | CurrentIndex(timeline, now) < j < |timeline| :: StartMs(timeline[j]) > now
    ensures StartMs(timeline[0]) > now ==> CurrentIndex(timeline, now) == 0
  {
    var n := StartedCount(timeline, now);
    forall j | CurrentIndex(timeline, now) < j < |timeline|
      ensures StartMs(timeline[j]) > now
    {
      if n < j {
        assert NotLater(timeline[n], timeline[j]);
      }
    }
  }

  /** The current entry of a timeline as the scan of getCurrentSekki finds it. */
  method CurrentEntry(timeline: seq<Entry>, now: int) returns (current: Entry)
    requires |timeline| > 0
    ensures current == timeline[CurrentIndex(timeline, now)]
  {
    current := timeline[0];
    var i := 0;
    while i < |timeline|
      invariant i <= StartedCount(timeline, now)
      invariant current == timeline[if i == 0 then 0 else i - 1]
    {
      if StartMs(timeline[i]) <= now {
        current := timeline[i];
      } else {
        break;
      }
      i := i + 1;
    }
  }

  /** getCurrentSekki: the term current at a moment, from the application's timeline. */
  method GetCurrentSekki(table: DateTable, now: LocalTime) returns (current: SekkiData)
    ensures var timeline := SekkiTimeline(table, now.date.year);
            current == timeline[CurrentIndex(timeline, Time(now))].data
  {
    var timeline := BuildTimeline(table, SEKKI_DATA, SEKKI_CALENDAR_ORDER, now.date);
    assert timeline == SekkiTimeline(table, now.date.year);
    var entry := CurrentEntry(timeline, Time(now));
    current := entry.data;
  }

  // ---------------------------------------------------------------------
  // The transition between two terms
  // ---------------------------------------------------------------------

  /** The current term, the next one and how far the blend towards the next has gone. */
  datatype Transition = Transition(current: SekkiData, next: SekkiData, progress: real)

  /** Three days in milliseconds: the half-width of the blending window. */
  const TRANSITION_MS: int := 3 * 24 * 60 * 60 * 1000

  /**
   * The progress at `now` towards a term starting at `nextStart`: linear
   * across the window of three days either side of the start, 0 before it,
   * 1 after it, clamped to [0, 1].
   */
  function Progress(nextStart: int, now: int): (p: real)
    ensures 0.0 <= p <= 1.0
  {
    var begin := nextStart - TRANSITION_MS;
    var end := nextStart + TRANSITION_MS;
    var raw :=
      if begin <= now <= end then (now - begin) as real / (end - begin) as real
      else if now > end then 1.0
      else 0.0;
    Clamp01(raw)
  }

  /**
   * The shape of the progress: 0 up to three days before the start, 1 from
   * three days after it, linear in between, one half exactly at the start.
   */
  lemma ProgressWindow(nextStart: int, now: int)
    ensures Progress(nextStart, now) == 0.0 <==> now <= nextStart - TRANSITION_MS
    ensures Progress(nextStart, now) == 1.0 <==> now >= nextStart + TRANSITION_MS
    ensures nextStart - TRANSITION_MS <= now <= nextStart + TRANSITION_MS ==>
              Progress(nextStart, now) == (now - nextStart + TRANSITION_MS) as real / (2 * TRANSITION_MS) as real
    ensures now == nextStart ==> Progress(nextStart, now) == 0.5
    ensures now < nextStart ==> Progress(nextStart, now) < 0.5
    ensures now > nextStart ==> Progress(nextStart, now) > 0.5
  {
    var d := (2 * TRANSITION_MS) as real;
    var x := (now - nextStart + TRANSITION_MS) as real;
    if nextStart - TRANSITION_MS <= now <= nextStart + TRANSITION_MS {
      assert 0.0 <= x / d <= 1.0;
      assert x / d == 0.0 <==> x == 0.0;
      assert x / d == 1.0 <==> x == d;
      assert x / d < 0.5 <==> x < d / 2.0;
    }
  }

  /** The progress never falls as time goes on. */
  lemma ProgressMonotone(nextStart: int, a: int, b: int)
    requires a <= b
    ensures Progress(nextStart, a) <= Progress(nextStart, b)
  {
    var d := (2 * TRANSITION_MS) as real;
    var lo := nextStart - TRANSITION_MS;
    var hi := nextStart + TRANSITION_MS;
    if lo <= a <= hi && lo <= b <= hi {
      assert (a - lo) as real / d <= (b - lo) as real / d;
    } else if lo <= a <= hi {
      assert (a - lo) as real / d <= 1.0;
    } else if lo <= b <= hi {
      assert (b - lo) as real / d >= 0.0;
    }
  }

  /** The entry after the current one, or the current one again at the end of the timeline. */
  function NextIndex(timeline: seq<Entry>, now: int): (j: nat)
    requires |timeline| > 0
    ensures j < |timeline|
    ensures j == CurrentIndex(timeline, now) + 1 || j == CurrentIndex(timeline, now) == |timeline| - 1
  {
    var i := CurrentIndex(timeline, now);
    if i + 1 <= |timeline| - 1 then i + 1 else |timeline| - 1
  }

  /** getSekkiTransition on a timeline: the current entry, the next one and the progress towards it. */
  function TransitionOf(timeline: seq<Entry>, now: int): (tr: Transition)
    requires |timeline| > 0
    ensures 0.0 <= tr.progress <= 1.0
  {
    var i := CurrentIndex(timeline, now);
    var j := NextIndex(timeline, now);
    Transition(timeline[i].data, timeline[j].data, Progress(StartMs(timeline[j]), now))
  }

  /**
   * On a sorted timeline whose current entry is not the last, the next entry
   * starts after `now`, so the progress stays below one half: the moment the
   * next term starts it becomes the current one, and the three days after a
   * start are never blended towards that term.
   */
  lemma ProgressBelowHalf(timeline: seq<Entry>, now: int)
    requires |timeline| > 0 && SortedBy(timeline, NotLater)
    requires CurrentIndex(timeline, now) < |timeline| - 1
    ensures StartMs(timeline[NextIndex(timeline, now)]) > now
    ensures TransitionOf(timeline, now).progress < 0.5
  {
    CurrentIsLatestStarted(timeline, now);
    ProgressWindow(StartMs(timeline[NextIndex(timeline, now)]), now);
  }

  /** The scan and the progress computation of getSekkiTransition, on a given timeline. */
  method TransitionAt(timeline: seq<Entry>, now: int) returns (tr: Transition)
    requires |timeline| > 0
    ensures tr == TransitionOf(timeline, now)
  {
    var currentIdx := 0;
    var i := 0;
    while i < |timeline|
      invariant i <= StartedCount(timeline, now)
      invariant currentIdx == if i == 0 then 0 else i - 1
    {
      if StartMs(timeline[i]) <= now {
        currentIdx := i;
      } else {
        break;
      }
      i := i + 1;
    }
    assert currentIdx == CurrentIndex(timeline, now);
    var nextIdx := if currentIdx + 1 <= |timeline| - 1 then currentIdx + 1 else |timeline| - 1;
    var nextStart := StartMs(timeline[nextIdx]);
    var begin := nextStart - TRANSITION_MS;
    var end := nextStart + TRANSITION_MS;
    var progress := 0.0;
    if begin <= now <= end {
      progress := (now - begin) as real / (end - begin) as real;
    } else if now > end {
      progress := 1.0;
    }
    assert Clamp01(progress) == Progress(nextStart, now);
    tr := Transition(timeline[currentIdx].data, timeline[nextIdx].data, Clamp01(progress));
  }

  /** getSekkiTransition: the transition at a moment, on the application's timeline. */
  method GetSekkiTransition(table: DateTable, now: LocalTime) returns (tr: Transition)
    ensures tr == TransitionOf(SekkiTimeline(table, now.date.year), Time(now))
  {
    var timeline := BuildTimeline(table, SEKKI_DATA, SEKKI_CALENDAR_ORDER, now.date);
    assert timeline == SekkiTimeline(table, now.date.year);
    tr := TransitionAt(timeline, Time(now));
  }

  // ---------------------------------------------------------------------
  // The interpolated style
  // ---------------------------------------------------------------------

  /** The CSS values of the card and the page background. */
  datatype Style = Style(bgGradient: string, cardBorderColor: string, cardShadowColor: string)

  /** `linear-gradient(${angle}deg, ${c1}, ${c2})`. */
  function GradientCss(angle: int, c1: string, c2: string): string
  {
    "linear-gradient(" + IntToDecimal(angle) + "deg, " + c1 + ", " + c2 + ")"
  }

  /** A term's own style, its strings used as they are. */
  function OwnStyle(data: SekkiData): Style
  {
    var g := data.bgGradient;
    Style(GradientCss(g.angle, g.color1, g.color2), data.cardBorderColor, data.cardShadowColor)
  }

  /** Math.round(a1 + (a2 - a1) * t): the blended gradient angle. */
  function BlendAngle(a1: int, a2: int, t: real): (a: int)
    requires 0.0 <= t <= 1.0
    ensures (a1 <= a && a <= a2) || (a2 <= a && a <= a1)
    ensures t == 0.0 ==> a == a1
    ensures t == 1.0 ==> a == a2
  {
    var x := Blend(a1 as real, a2 as real, t);
    BlendBetween(a1 as real, a2 as real, t);
    RoundOfInt(a1);
    RoundOfInt(a2);
    if a1 <= a2 then RoundBetween(x, a1, a2); Round(x)
    else RoundBetween(x, a2, a1); Round(x)
  }

  /** The style blended between two terms at progress p. */
  function BlendedStyle(current: SekkiData, next: SekkiData, p: real): Style
    requires 0.0 <= p <= 1.0
  {
    var g1 := current.bgGradient;
    var g2 := next.bgGradient;
    Style(GradientCss(BlendAngle(g1.angle, g2.angle, p),
                      LerpColor(g1.color1, g2.color1, p),
                      LerpColor(g1.color2, g2.color2, p)),
          LerpRgba(current.cardBorderColor, next.cardBorderColor, p),
          LerpRgba(current.cardShadowColor, next.cardShadowColor, p))
  }

  /** getInterpolatedSekkiStyle for a transition: a plain term at 0 and 1, a blend in between. */
  function InterpolatedStyle(tr: Transition): (s: Style)
    requires 0.0 <= tr.progress <= 1.0
    ensures tr.progress == 0.0 ==> s == OwnStyle(tr.current)
    ensures tr.progress == 1.0 ==> s == OwnStyle(tr.next)
    ensures 0.0 < tr.progress < 1.0 ==> s == BlendedStyle(tr.current, tr.next, tr.progress)
  {
    if tr.progress == 0.0 then OwnStyle(tr.current)
    else if tr.progress == 1.0 then OwnStyle(tr.next)
    else BlendedStyle(tr.current, tr.next, tr.progress)
  }

  /**
   * The shortcuts at 0 and 1 agree with the blend: at either end the blend
   * gives that term's gradient (its hex colours in six lower-case digits)
   * and its card colours, when those are printed rgba() strings.
   */
  lemma BlendedStyleEnds(current: SekkiData, next: SekkiData,
                         r1: nat, g1: nat, b1: nat, k1: nat, r2: nat, g2: nat, b2: nat, k2: nat)
    requires WellFormedHex(current.bgGradient.color1) && WellFormedHex(current.bgGradient.color2)
    requires WellFormedHex(next.bgGradient.color1) && WellFormedHex(next.bgGradient.color2)
    requires current.cardBorderColor == FormatRgba(r1, g1, b1, Some(k1))
    requires next.cardBorderColor == FormatRgba(r2, g2, b2, Some(k2))
    requires ParseRgba(current.cardShadowColor).a.Some? && ParseRgba(next.cardShadowColor).a.Some?
    ensures var s := BlendedStyle(current, next, 0.0);
            var g := current.bgGradient;
            s.bgGradient == GradientCss(g.angle, "#" + NormalizedHex(g.color1), "#" + NormalizedHex(g.color2))
            && s.cardBorderColor == current.cardBorderColor
    ensures var s := BlendedStyle(current, next, 1.0);
            var g := next.bgGradient;
            s.bgGradient == GradientCss(g.angle, "#" + NormalizedHex(g.color1), "#" + NormalizedHex(g.color2))
            && s.cardBorderColor == next.cardBorderColor
  {
    LerpColorEnds(current.bgGradient.color1, next.bgGradient.color1, 0.0);
    LerpColorEnds(current.bgGradient.color2, next.bgGradient.color2, 0.0);
    LerpColorEnds(current.bgGradient.color1, next.bgGradient.color1, 1.0);
    LerpColorEnds(current.bgGradient.color2, next.bgGradient.color2, 1.0);
    ParseFormatted(current.cardBorderColor, r1, g1, b1, k1);
    ParseFormatted(next.cardBorderColor, r2, g2, b2, k2);
    LerpRgbaEnds(current.cardBorderColor, r1, g1, b1, k1, next.cardBorderColor, 0.0);
    LerpRgbaEnds(next.cardBorderColor, r2, g2, b2, k2, current.cardBorderColor, 1.0);
  }

  /** getInterpolatedSekkiStyle: the style at a moment. */
  method GetInterpolatedSekkiStyle(table: DateTable, now: LocalTime) returns (s: Style)
    ensures s == InterpolatedStyle(TransitionOf(SekkiTimeline(table, now.date.year), Time(now)))
  {
    var tr := GetSekkiTransition(table, now);
    if tr.progress == 0.0 {
      s := OwnStyle(tr.current);
    } else if tr.progress == 1.0 {
      s := OwnStyle(tr.next);
    } else {
      s := BlendedStyle(tr.current, tr.next, tr.progress);
    }
  }
}
