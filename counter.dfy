/**
 * The `/stats` branch of the command table: a read-increment-write of the
 * `commands` attribute of the single row whose id is "stats". The table is an
 * object whose rows the branch updates in place; the store's exceptions are
 * an injected fault that the branch swallows.
 */
module Counter {
  import opened Wrappers
  import PyText

  /** The id of the one row the bot keeps. */
  const StatsKey: string := "stats"

  const ReportPrefix: string := "📊 Comandos procesados: "

  /** The reply when the store raised. */
  const StatsUnavailable: string := "📊 Estadísticas no disponibles temporalmente"

  /** Which store call, if any, raises during one `/stats` command. */
  datatype StoreFault = NoFault | GetFails | PutFails

  /** An exception raised by the store client; its text is only logged. */
  datatype StoreError = StoreError

  /** The counter as the branch reads it: a missing row counts as 0. */
  function CountIn(items: map<string, int>): (count: int)
    ensures StatsKey in items ==> count == items[StatsKey]
    ensures StatsKey !in items ==> count == 0
  {
    if StatsKey in items then items[StatsKey] else 0
  }

  /** The reply that reports the count `n`. */
  function Report(n: int): (text: string)
    ensures |text| > |ReportPrefix| && text[..|ReportPrefix|] == ReportPrefix
    ensures text[|ReportPrefix|] == '-' <==> n < 0
    ensures forall i :: |ReportPrefix| < i < |text| ==> '0' <= text[i] <= '9'
  {
    ReportPrefix + PyText.IntToDecimal(n)
  }

  /** The number a `/stats` reply reports, if it reports one. */
  function ReportedCount(text: string): Option<int> {
    if |text| >= |ReportPrefix| && text[..|ReportPrefix|] == ReportPrefix
    then PyText.ParseInt(text[|ReportPrefix|..])
    else None
  }

  /** A report can be read back as the number it was made from. */
  lemma ReportReadsBack(n: int)
    ensures ReportedCount(Report(n)) == Some(n)
  {
    PyText.IntRoundTrip(n);
    assert Report(n)[|ReportPrefix|..] == PyText.IntToDecimal(n);
  }

  /** The placeholder reports no number. */
  lemma UnavailableReportsNothing()
    ensures ReportedCount(StatsUnavailable) == None
  {
    assert StatsUnavailable[2] != ReportPrefix[2];
  }

  datatype StatsOutcome = StatsOutcome(text: string, rows: map<string, int>)

  /**
   * What one `/stats` command replies and leaves in the table: the new count
   * after a successful read and write, the placeholder and an untouched table
   * when either store call raises.
   */
  function StatsCommand(rows: map<string, int>, fault: StoreFault): (o: StatsOutcome)
    ensures fault == NoFault ==>
      && StatsKey in o.rows && o.rows[StatsKey] == CountIn(rows) + 1
      && ReportedCount(o.text) == Some(CountIn(rows) + 1)
    ensures fault != NoFault ==> o.rows == rows && o.text == StatsUnavailable
    ensures o.rows.Keys <= rows.Keys + {StatsKey}
    ensures forall k :: k in rows && k != StatsKey ==> k in o.rows && o.rows[k] == rows[k]
    ensures CountIn(rows) <= CountIn(o.rows) <= CountIn(rows) + 1
    ensures |o.text| > 0
  {
    if fault == NoFault then
      var count := CountIn(rows) + 1;
      ReportReadsBack(count);
      StatsOutcome(Report(count), rows[StatsKey := count])
    else
      StatsOutcome(StatsUnavailable, rows)
  }

  /** The table after one `/stats` command per entry of `faults`, run one after another. */
  function RunStats(rows: map<string, int>, faults: seq<StoreFault>): map<string, int>
    decreases |faults|
  {
    if faults == [] then rows
    else RunStats(StatsCommand(rows, faults[0]).rows, faults[1..])
  }

  /** How many of the commands found the store working. */
  function Successes(faults: seq<StoreFault>): nat
    ensures Successes(faults) <= |faults|
  {
    if faults == [] then 0
    else (if faults[0] == NoFault then 1 else 0) + Successes(faults[1..])
  }

  /**
   * Run one after another, K commands that reach the store raise the counter
   * by exactly K, and no other row changes.
   */
  lemma {:induction false} RunStatsCounts(rows: map<string, int>, faults: seq<StoreFault>)
    ensures CountIn(RunStats(rows, faults)) == CountIn(rows) + Successes(faults)
    ensures forall k :: k in rows && k != StatsKey ==>
      k in RunStats(rows, faults) && RunStats(rows, faults)[k] == rows[k]
    decreases |faults|
  {
    if faults != [] {
      RunStatsCounts(StatsCommand(rows, faults[0]).rows, faults[1..]);
    }
  }

  /** The table holding the bot's counter row: row id to its `commands` attribute. */
  class CounterTable {
    var rows: map<string, int>

    constructor (initial: map<string, int>)
      ensures rows == initial
    {
      rows := initial;
    }

    /** `table.get_item(Key={'id': key})`: the row's counter, None when there is no row. */
    method GetItem(key: string, fails: bool) returns (r: Result<Option<int>, StoreError>)
      ensures fails <==> r.Failure?
      ensures r.Success? && key in rows ==> r.value == Some(rows[key])
      ensures r.Success? && key !in rows ==> r.value == None
    {
      if fails {
        return Failure(StoreError);
      }
      r := Success(if key in rows then Some(rows[key]) else None);
    }

    /** `table.put_item(Item={'id': key, 'commands': value})`: replaces the row. */
    method PutItem(key: string, value: int, fails: bool) returns (r: Result<(), StoreError>)
      modifies this
      ensures fails <==> r.Failure?
      ensures rows == if fails then old(rows) else old(rows)[key := value]
    {
      if fails {
        return Failure(StoreError);
      }
      rows := rows[key := value];
      r := Success(());
    }

    /**
     * The `/stats` branch: read the row, add one to its counter, write it
     * back and report the new count; any store exception gives the placeholder.
     */
    method RecordStats(fault: StoreFault) returns (text: string)
      modifies this
      ensures StatsOutcome(text, rows) == StatsCommand(old(rows), fault)
    {
      text := StatsUnavailable;
      var got := GetItem(StatsKey, fault == GetFails);
      if got.Failure? {
        return;
      }
      var count := if got.value.Some? then got.value.value else 0;
      assert count == CountIn(old(rows));
      count := count + 1;
      var put := PutItem(StatsKey, count, fault == PutFails);
      if put.Failure? {
        return;
      }
      text := Report(count);
      assert rows == old(rows)[StatsKey := count];
    }
  }
}
