/**
 * The shipped configuration: the receiving endpoint, the training-week catalog
 * and the attachment size ceiling (constants.ts), with the facts the form relies on.
 */
module Constants {
  import opened Types
  import opened Numerals
  import opened Dates

  /** The web-app endpoint every file is posted to. */
  const GoogleScriptUrl: string := "https://script.google.com/macros/s/AKfycbzBwHrV24F0VOcha7894Wgb80I53JZi0gbe6SYH8HX7TIgxUsQXJiG2o_sPRGewZBzr/exec"

  /** The per-file size ceiling in mebibytes. */
  const MaxFileSizeMb: nat := 10

  /** The weeks offered by the week selector, in display order. */
  const TrainingWeeks: seq<WeekOption> := [
    WeekOption("week-0", "OT", None, Some("1권: 비전의 사람 (상반기)"), Some("2026-01-25")),
    WeekOption("week-1", "1주차", Some("1-1 내가 만난 예수님"), Some("1권: 비전의 사람 (상반기)"), Some("2026-02-01")),
    WeekOption("week-2", "2주차", Some("1-2 제자란 누구인가"), Some("1권: 비전의 사람 (상반기)"), Some("2026-02-08")),
    WeekOption("week-3", "3주차", Some("1-3 하나님의 주재권"), Some("1권: 비전의 사람 (상반기)"), Some("2026-02-22")),
    WeekOption("week-4", "4주차", Some("1-4 영적전쟁"), Some("1권: 비전의 사람 (상반기)"), Some("2026-03-01")),
    WeekOption("week-5", "5주차", Some("1-5 무릎으로 승부하라"), Some("1권: 비전의 사람 (상반기)"), Some("2026-03-08")),
    WeekOption("week-6", "6주차", Some("1-6 성경의 권위 (암송시험)"), Some("1권: 비전의 사람 (상반기)"), Some("2026-03-15")),
    WeekOption("week-7", "7주차", Some("1-7 하나님은 누구신가?"), Some("1권: 비전의 사람 (상반기)"), Some("2026-03-22")),
    WeekOption("week-8", "8주차", Some("1-8 인간은 누구인가?"), Some("1권: 비전의 사람 (상반기)"), Some("2026-03-29")),
    WeekOption("week-9", "9주차", Some("1-9 예수 그리스도는 누구신가?"), Some("1권: 비전의 사람 (상반기)"), Some("2026-04-05")),
    WeekOption("week-10", "10주차", Some("1-10 십자가와 구원"), Some("1권: 비전의 사람 (상반기)"), Some("2026-04-12")),
    WeekOption("week-11", "11주차", Some("1-11 성령 하나님은 누구신가? (암송시험)"), Some("1권: 비전의 사람 (상반기)"), Some("2026-04-19")),
    WeekOption("week-12", "12주차", Some("1-12 거룩한 삶 (1권 중간고사)"), Some("1권: 비전의 사람 (상반기)"), Some("2026-04-26")),
    WeekOption("week-13", "13주차", Some("공동체 연합의 시간"), Some("2권: 성령의 사람 (하반기)"), Some("2026-05-03")),
    WeekOption("week-14", "14주차", Some("2-1 교회란 무엇인가"), Some("2권: 성령의 사람 (하반기)"), None),
    WeekOption("week-15", "15주차", Some("2-2 예수 그리스도의 재림과 영원한 소망"), Some("2권: 성령의 사람 (하반기)"), Some("2026-05-10")),
    WeekOption("week-16", "16주차", Some("2-3 주가 오실 길을 예비하라"), Some("2권: 성령의 사람 (하반기)"), Some("2026-05-17")),
    WeekOption("week-17", "17주차", Some("2-4 하나님의 임재가 충만한 예배"), Some("2권: 성령의 사람 (하반기)"), Some("2026-05-24")),
    WeekOption("week-18", "18주차", Some("2-5 순종의 삶"), Some("2권: 성령의 사람 (하반기)"), Some("2026-05-31")),
    WeekOption("week-19", "19주차", Some("2-6 말의 능력 (암송시험)"), Some("2권: 성령의 사람 (하반기)"), None),
    WeekOption("week-20", "20주차", Some("2-7 재정 관리"), Some("2권: 성령의 사람 (하반기)"), Some("2026-06-07")),
    WeekOption("week-21", "21주차", Some("2-8 다음세대를 준비하라"), Some("2권: 성령의 사람 (하반기)"), Some("2026-06-14")),
    WeekOption("week-22", "22주차", Some("2-9 섬김과 나눔을 실천하라"), Some("2권: 성령의 사람 (하반기)"), Some("2026-06-21")),
    WeekOption("week-23", "23주차", Some("2-10 영향력 있는 사람을 세우라 (최종 암송)"), Some("2권: 성령의 사람 (하반기)"), Some("2026-06-28")),
    WeekOption("week-24", "24주차", Some("2-11 비전의 사람이 되라 (2권 기말고사)"), Some("2권: 성령의 사람 (하반기)"), Some("2026-07-05"))
  ]

  /** The catalog has 25 entries and the entry at position k has id `week-k`. */
  lemma CatalogIds(k: nat)
    requires k < 25
    ensures |TrainingWeeks| == 25 && TrainingWeeks[k].id == "week-" + Decimal(k)
  {
    assert k == 0 || k == 1 || k == 2 || k == 3 || k == 4 || k == 5 || k == 6 || k == 7
      || k == 8 || k == 9 || k == 10 || k == 11 || k == 12 || k == 13 || k == 14 || k == 15
      || k == 16 || k == 17 || k == 18 || k == 19 || k == 20 || k == 21 || k == 22 || k == 23
      || k == 24;
  }

  /** Week 0 is captioned `OT`; week k > 0 is captioned `k주차`. */
  lemma CatalogCaptions(k: nat)
    requires k < |TrainingWeeks|
    ensures TrainingWeeks[k].caption == if k == 0 then "OT" else Decimal(k) + "주차"
  {
    if k < 13 {
      CaptionsBookOne(k);
    } else {
      CaptionsBookTwo(k);
    }
  }

  lemma CaptionsBookOne(k: nat)
    requires k < 13
    ensures TrainingWeeks[k].caption == if k == 0 then "OT" else Decimal(k) + "주차"
  {
    assert k == 0 || k == 1 || k == 2 || k == 3 || k == 4 || k == 5 || k == 6 || k == 7
      || k == 8 || k == 9 || k == 10 || k == 11 || k == 12;
  }

  lemma CaptionsBookTwo(k: nat)
    requires 13 <= k < 25
    ensures TrainingWeeks[k].caption == Decimal(k) + "주차"
  {
    assert k == 13 || k == 14 || k == 15 || k == 16 || k == 17 || k == 18 || k == 19 || k == 20
      || k == 21 || k == 22 || k == 23 || k == 24;
  }

  /** Only week 0 lacks a topic, every week has a section, and only weeks 14 and 19 lack a start date. */
  lemma CatalogOptionalFields(k: nat)
    requires k < |TrainingWeeks|
    ensures TrainingWeeks[k].topic.None? <==> k == 0
    ensures TrainingWeeks[k].section.Some?
    ensures TrainingWeeks[k].startDate.None? <==> k == 14 || k == 19
  {
    assert k == 0 || k == 1 || k == 2 || k == 3 || k == 4 || k == 5 || k == 6 || k == 7
      || k == 8 || k == 9 || k == 10 || k == 11 || k == 12 || k == 13 || k == 14 || k == 15
      || k == 16 || k == 17 || k == 18 || k == 19 || k == 20 || k == 21 || k == 22 || k == 23
      || k == 24;
  }

  predicate HasStartDate(k: nat)
  {
    k < |TrainingWeeks| && TrainingWeeks[k].startDate.Some?
  }

  function StartDate(k: nat): string
    requires HasStartDate(k)
  {
    TrainingWeeks[k].startDate.value
  }

  /** Every start date present is written `YYYY-MM-DD`. */
  lemma StartDatesWellFormed(k: nat)
    requires HasStartDate(k)
    ensures IsIsoDate(StartDate(k))
  {
    assert k == 0 || k == 1 || k == 2 || k == 3 || k == 4 || k == 5 || k == 6 || k == 7
      || k == 8 || k == 9 || k == 10 || k == 11 || k == 12 || k == 13 || k == 14 || k == 15
      || k == 16 || k == 17 || k == 18 || k == 19 || k == 20 || k == 21 || k == 22 || k == 23
      || k == 24;
  }

  /** The nearest earlier entry that has a start date. */
  function PreviousDated(k: nat): nat
    requires 0 < k
  {
    if k == 15 || k == 20 then k - 2 else k - 1
  }

  /** Each start date falls after that of the nearest earlier dated entry. */
  lemma StartDateAfterPrevious(k: nat)
    requires 0 < k && HasStartDate(k)
    ensures HasStartDate(PreviousDated(k))
    ensures IsIsoDate(StartDate(PreviousDated(k))) && IsIsoDate(StartDate(k))
    ensures CalendarBefore(StartDate(PreviousDated(k)), StartDate(k))
  {
    StartDatesWellFormed(k);
    CatalogOptionalFields(PreviousDated(k));
    StartDatesWellFormed(PreviousDated(k));
    if k <= 6 {
      DatesWeeks1To6(k);
    } else if k <= 9 {
      DatesWeeks7To9(k);
    } else if k <= 13 {
      DatesWeeks10To13(k);
    } else if k < 20 {
      DatesWeeks15To19(k);
    } else {
      DatesWeeks20To24(k);
    }
  }

  lemma DatesWeeks1To6(k: nat)
    requires 0 < k <= 6 && HasStartDate(k)
    requires IsIsoDate(StartDate(PreviousDated(k))) && IsIsoDate(StartDate(k))
    ensures CalendarBefore(StartDate(PreviousDated(k)), StartDate(k))
  {
    assert k == 1 || k == 2 || k == 3 || k == 4 || k == 5 || k == 6;
  }

  lemma DatesWeeks7To9(k: nat)
    requires 7 <= k <= 9 && HasStartDate(k)
    requires IsIsoDate(StartDate(PreviousDated(k))) && IsIsoDate(StartDate(k))
    ensures CalendarBefore(StartDate(PreviousDated(k)), StartDate(k))
  {
    assert k == 7 || k == 8 || k == 9;
  }

  lemma DatesWeeks10To13(k: nat)
    requires 10 <= k <= 13 && HasStartDate(k)
    requires IsIsoDate(StartDate(PreviousDated(k))) && IsIsoDate(StartDate(k))
    ensures CalendarBefore(StartDate(PreviousDated(k)), StartDate(k))
  {
    assert k == 10 || k == 11 || k == 12 || k == 13;
  }

  lemma DatesWeeks15To19(k: nat)
    requires 15 <= k <= 19 && HasStartDate(k)
    requires IsIsoDate(StartDate(PreviousDated(k))) && IsIsoDate(StartDate(k))
    ensures CalendarBefore(StartDate(PreviousDated(k)), StartDate(k))
  {
    assert k == 15 || k == 16 || k == 17 || k == 18;
  }

  lemma DatesWeeks20To24(k: nat)
    requires 20 <= k < 25 && HasStartDate(k)
    requires IsIsoDate(StartDate(PreviousDated(k))) && IsIsoDate(StartDate(k))
    ensures CalendarBefore(StartDate(PreviousDated(k)), StartDate(k))
  {
    assert k == 20 || k == 21 || k == 22 || k == 23 || k == 24;
  }

  /** No two catalog entries share an id, so a lookup by id finds at most one entry. */
  lemma CatalogIdsDistinct(i: nat, j: nat)
    requires i < j < |TrainingWeeks|
    ensures TrainingWeeks[i].id != TrainingWeeks[j].id
  {
    CatalogIds(i);
    CatalogIds(j);
    if TrainingWeeks[i].id == TrainingWeeks[j].id {
      assert Decimal(i) == TrainingWeeks[i].id[5..] == TrainingWeeks[j].id[5..] == Decimal(j);
      DecimalInjective(i, j);
    }
  }

  /** Start dates increase strictly down the catalog, both as strings and as calendar dates. */
  lemma {:induction false} StartDatesIncrease(i: nat, j: nat)
    requires i < j && HasStartDate(i) && HasStartDate(j)
    ensures IsIsoDate(StartDate(i)) && IsIsoDate(StartDate(j))
    ensures CalendarBefore(StartDate(i), StartDate(j))
    ensures LexLess(StartDate(i), StartDate(j))
    decreases j
  {
    StartDateAfterPrevious(j);
    var p := PreviousDated(j);
    if i < p {
      StartDatesIncrease(i, p);
      IsoOrderIsCalendarOrder(StartDate(i), StartDate(p));
      IsoOrderIsCalendarOrder(StartDate(p), StartDate(j));
      LexLessTransitive(StartDate(i), StartDate(p), StartDate(j));
    } else if i == p {
    } else {
      // p < i < j: only week 14 or 19 lies strictly between, and those have no start date
      CatalogOptionalFields(i);
      assert false;
    }
    IsoOrderIsCalendarOrder(StartDate(i), StartDate(j));
  }

  /** The shipped endpoint is configured, so the configuration check never blocks a submission. */
  lemma ShippedEndpointConfigured()
    ensures |GoogleScriptUrl| > 0
  {
  }
}
