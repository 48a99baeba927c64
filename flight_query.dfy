/**
 * The flight search: FlightRepository.query appends one SQL condition and one
 * bound parameter per present criterion, in a fixed order, to
 * "SELECT * FROM flights WHERE 1=1". The criteria are modelled as data, the
 * SQL text and the parameter list are derived from them, and their meaning on
 * a row is compared with an independent statement of the filter.
 */
module FlightQuery {
  import opened Wrappers
  import opened JavaString
  import opened FlightModel

  /** The search form; every field may be null. */
  datatype FlightQuery = FlightQuery(
    number: Option<string>,
    fromCity: Option<string>,
    toCity: Option<string>,
    departureMin: Option<int>,
    departureMax: Option<int>,
    arrivalMin: Option<int>,
    arrivalMax: Option<int>,
    passengerCountMin: Option<int>,
    passengerCountMax: Option<int>,
    ticketPriceMin: Option<int>,
    ticketPriceMax: Option<int>)

  const NoCriteria := FlightQuery(None, None, None, None, None, None, None, None, None, None, None)

  /** A text criterion is used only when it is neither null nor blank. */
  predicate Present(s: Option<string>) {
    s.Some? && !IsBlank(s.value)
  }

  datatype Column = Number | FromCity | ToCity | Departure | Arrival | PassengerCount | TicketPrice
  datatype Op = Eq | Ge | Le
  /** A bound parameter of the prepared statement. */
  datatype Param = Text(text: string) | Int(number: int)
  datatype Criterion = Criterion(column: Column, op: Op, param: Param)

  function ColumnName(c: Column): (r: string)
    ensures '?' !in r
  {
    match c
    case Number => "number"
    case FromCity => "from_city"
    case ToCity => "to_city"
    case Departure => "departure"
    case Arrival => "arrival"
    case PassengerCount => "passenger_count"
    case TicketPrice => "ticket_price"
  }

  function OpText(op: Op): (r: string)
    ensures '?' !in r
  {
    match op
    case Eq => "="
    case Ge => ">="
    case Le => "<="
  }

  /** The part of a condition before its placeholder; it holds no '?'. */
  function Condition(c: Criterion): (r: string)
    ensures '?' !in r
  {
    " AND " + ColumnName(c.column) + " " + OpText(c.op)
  }

  /** The condition text appended for one criterion: " AND <column> <op> ?". */
  function Clause(c: Criterion): string {
    Condition(c) + " ?"
  }

  const Base := "SELECT * FROM flights WHERE 1=1"

  /** The conditions appended for a sequence of criteria, in order. */
  function Where(cs: seq<Criterion>): string {
    if cs == [] then "" else Where(cs[..|cs| - 1]) + Clause(cs[|cs| - 1])
  }

  function ParamsOf(cs: seq<Criterion>): (r: seq<Param>)
    ensures |r| == |cs|
    ensures forall i :: 0 <= i < |cs| ==> r[i] == cs[i].param
  {
    if cs == [] then [] else ParamsOf(cs[..|cs| - 1]) + [cs[|cs| - 1].param]
  }

  /** The number of '?' placeholders in a text. */
  function Placeholders(s: string): nat {
    if s == [] then 0 else Placeholders(s[..|s| - 1]) + (if s[|s| - 1] == '?' then 1 else 0)
  }

  lemma {:induction false} PlaceholdersAppend(a: string, b: string)
    ensures Placeholders(a + b) == Placeholders(a) + Placeholders(b)
  {
    if b != [] {
      assert (a + b)[..|a + b| - 1] == a + b[..|b| - 1];
      PlaceholdersAppend(a, b[..|b| - 1]);
    } else {
      assert a + b == a;
    }
  }

  lemma {:induction false} NoPlaceholders(s: string)
    requires '?' !in s
    ensures Placeholders(s) == 0
  {
    if s != [] {
      assert forall x :: x in s[..|s| - 1] ==> x in s;
      NoPlaceholders(s[..|s| - 1]);
    }
  }

  /** `if (x != null && !x.isBlank())`: an equality criterion on a text column. */
  function StepText(cs: seq<Criterion>, column: Column, s: Option<string>): seq<Criterion> {
    if Present(s) then cs + [Criterion(column, Eq, Text(s.value))] else cs
  }

  /** `if (x != null)`: a bound criterion on a numeric column. */
  function StepInt(cs: seq<Criterion>, column: Column, op: Op, v: Option<int>): seq<Criterion> {
    if v.Some? then cs + [Criterion(column, op, Int(v.value))] else cs
  }

  /** The number, from-city and to-city steps, applied after the criteria cs. */
  function TextSteps(cs: seq<Criterion>, q: FlightQuery): seq<Criterion> {
    StepText(StepText(StepText(cs, Number, q.number), FromCity, q.fromCity), ToCity, q.toCity)
  }

  /** The departure and arrival steps. */
  function TimeSteps(cs: seq<Criterion>, q: FlightQuery): seq<Criterion> {
    StepInt(StepInt(StepInt(StepInt(cs, Departure, Ge, q.departureMin),
      Departure, Le, q.departureMax), Arrival, Ge, q.arrivalMin), Arrival, Le, q.arrivalMax)
  }

  /** The passenger-count steps. */
  function CountSteps(cs: seq<Criterion>, q: FlightQuery): seq<Criterion> {
    StepInt(StepInt(cs, PassengerCount, Ge, q.passengerCountMin), PassengerCount, Le, q.passengerCountMax)
  }

  /** The ticket-price steps. */
  function PriceSteps(cs: seq<Criterion>, q: FlightQuery): seq<Criterion> {
    StepInt(StepInt(cs, TicketPrice, Ge, q.ticketPriceMin), TicketPrice, Le, q.ticketPriceMax)
  }

  /** The criteria the query uses, in the order the conditions are appended. */
  function Criteria(q: FlightQuery): seq<Criterion> {
    PriceSteps(CountSteps(TimeSteps(TextSteps([], q), q), q), q)
  }

  /** Each appended condition carries exactly one placeholder. */
  lemma {:induction false} WherePlaceholders(cs: seq<Criterion>)
    ensures Placeholders(Where(cs)) == |cs|
  {
    if cs != [] {
      var c := cs[|cs| - 1];
      WherePlaceholders(cs[..|cs| - 1]);
      NoPlaceholders(Condition(c));
      assert Placeholders(" ?") == 1 by {
        assert " ?"[..1] == " ";
        assert " "[..0] == [];
      }
      PlaceholdersAppend(Condition(c), " ?");
      PlaceholdersAppend(Where(cs[..|cs| - 1]), Clause(c));
    }
  }

  /** A statement that starts without placeholders holds one per criterion. */
  lemma StatementPlaceholders(b: string, cs: seq<Criterion>)
    requires '?' !in b
    ensures Placeholders(b + Where(cs)) == |cs|
  {
    WherePlaceholders(cs);
    NoPlaceholders(b);
    PlaceholdersAppend(b, Where(cs));
  }

  lemma BaseHasNoPlaceholder()
    ensures '?' !in Base
  {
  }

  /** The statement text and parameter list that a sequence of criteria yields. */
  predicate Built(sql: string, params: seq<Param>, cs: seq<Criterion>) {
    sql == Base + Where(cs) && params == ParamsOf(cs)
  }

  /** The assembled statement and its parameters, built by one `if` per criterion as the source does. */
  method BuildQuery(q: FlightQuery) returns (sql: string, params: seq<Param>)
    ensures Built(sql, params, Criteria(q))
    ensures Placeholders(sql) == |params|
  {
    sql, params := Base, [];
    ghost var cs: seq<Criterion> := [];
    assert Base + Where(cs) == Base;
    sql, params, cs := AppendText(sql, params, cs, Number, q.number);
    sql, params, cs := AppendText(sql, params, cs, FromCity, q.fromCity);
    sql, params, cs := AppendText(sql, params, cs, ToCity, q.toCity);
    sql, params, cs := AppendInt(sql, params, cs, Departure, Ge, q.departureMin);
    sql, params, cs := AppendInt(sql, params, cs, Departure, Le, q.departureMax);
    sql, params, cs := AppendInt(sql, params, cs, Arrival, Ge, q.arrivalMin);
    sql, params, cs := AppendInt(sql, params, cs, Arrival, Le, q.arrivalMax);
    sql, params, cs := AppendInt(sql, params, cs, PassengerCount, Ge, q.passengerCountMin);
    sql, params, cs := AppendInt(sql, params, cs, PassengerCount, Le, q.passengerCountMax);
    sql, params, cs := AppendInt(sql, params, cs, TicketPrice, Ge, q.ticketPriceMin);
    sql, params, cs := AppendInt(sql, params, cs, TicketPrice, Le, q.ticketPriceMax);
    BaseHasNoPlaceholder();
    StatementPlaceholders(Base, cs);
  }

  /** Appending one criterion appends its condition to the statement and its value to the parameters. */
  lemma Snoc(sql: string, params: seq<Param>, cs: seq<Criterion>, c: Criterion)
    requires Built(sql, params, cs)
    ensures Built(sql + Clause(c), params + [c.param], cs + [c])
  {
    WhereSnoc(cs, c);
    SeqAssoc(Base, Where(cs), Clause(c));
  }

  lemma WhereSnoc(cs: seq<Criterion>, c: Criterion)
    ensures Where(cs + [c]) == Where(cs) + Clause(c)
    ensures ParamsOf(cs + [c]) == ParamsOf(cs) + [c.param]
  {
    assert (cs + [c])[..|cs|] == cs;
  }

  lemma SeqAssoc(a: string, b: string, c: string)
    ensures (a + b) + c == a + (b + c)
  {
  }

  /** One text step of the query builder. */
  method AppendText(sql: string, params: seq<Param>, ghost cs: seq<Criterion>, column: Column, s: Option<string>)
    returns (sql': string, params': seq<Param>, ghost cs': seq<Criterion>)
    requires Built(sql, params, cs)
    ensures cs' == StepText(cs, column, s) && Built(sql', params', cs')
  {
    if s.Some? && !IsBlank(s.value) {
      var c := Criterion(column, Eq, Text(s.value));
      Snoc(sql, params, cs, c);
      sql', params', cs' := sql + Clause(c), params + [c.param], cs + [c];
    } else {
      sql', params', cs' := sql, params, cs;
    }
  }

  /** One numeric step of the query builder. */
  method AppendInt(sql: string, params: seq<Param>, ghost cs: seq<Criterion>, column: Column, op: Op, v: Option<int>)
    returns (sql': string, params': seq<Param>, ghost cs': seq<Criterion>)
    requires Built(sql, params, cs)
    ensures cs' == StepInt(cs, column, op, v) && Built(sql', params', cs')
  {
    if v.Some? {
      var c := Criterion(column, op, Int(v.value));
      Snoc(sql, params, cs, c);
      sql', params', cs' := sql + Clause(c), params + [c.param], cs + [c];
    } else {
      sql', params', cs' := sql, params, cs;
    }
  }

  /** The value a row holds in a column, as the database compares it. */
  function ColumnValue(row: FlightRecord, c: Column): Param {
    match c
    case Number => Text(row.number)
    case FromCity => Text(row.fromCity)
    case ToCity => Text(row.toCity)
    case Departure => Int(row.departure)
    case Arrival => Int(row.arrival)
    case PassengerCount => Int(row.passengerCount)
    case TicketPrice => Int(row.ticketPrice)
  }

  /** What one condition of the WHERE clause means for a row. */
  predicate Holds(c: Criterion, row: FlightRecord) {
    var v := ColumnValue(row, c.column);
    match c.op
    case Eq => v == c.param
    case Ge => v.Int? && c.param.Int? && v.number >= c.param.number
    case Le => v.Int? && c.param.Int? && v.number <= c.param.number
  }

  /** The conjunction of the conditions: "1=1 AND c1 AND c2 ...". */
  predicate HoldsAll(cs: seq<Criterion>, row: FlightRecord) {
    cs == [] || (HoldsAll(cs[..|cs| - 1], row) && Holds(cs[|cs| - 1], row))
  }

  lemma HoldsAllSnoc(cs: seq<Criterion>, c: Criterion, row: FlightRecord)
    ensures HoldsAll(cs + [c], row) <==> HoldsAll(cs, row) && Holds(c, row)
  {
    assert (cs + [c])[..|cs|] == cs;
  }

  /** The filter stated directly: every present criterion holds, bounds inclusive, all joined by AND. */
  predicate Matches(q: FlightQuery, row: FlightRecord) {
    MatchesTexts(q, row) && MatchesTimes(q, row) && MatchesCounts(q, row) && MatchesPrices(q, row)
  }

  predicate MatchesTexts(q: FlightQuery, row: FlightRecord) {
    && (Present(q.number) ==> row.number == q.number.value)
    && (Present(q.fromCity) ==> row.fromCity == q.fromCity.value)
    && (Present(q.toCity) ==> row.toCity == q.toCity.value)
  }

  predicate MatchesTimes(q: FlightQuery, row: FlightRecord) {
    && (q.departureMin.Some? ==> row.departure >= q.departureMin.value)
    && (q.departureMax.Some? ==> row.departure <= q.departureMax.value)
    && (q.arrivalMin.Some? ==> row.arrival >= q.arrivalMin.value)
    && (q.arrivalMax.Some? ==> row.arrival <= q.arrivalMax.value)
  }

  predicate MatchesCounts(q: FlightQuery, row: FlightRecord) {
    && (q.passengerCountMin.Some? ==> row.passengerCount >= q.passengerCountMin.value)
    && (q.passengerCountMax.Some? ==> row.passengerCount <= q.passengerCountMax.value)
  }

  predicate MatchesPrices(q: FlightQuery, row: FlightRecord) {
    && (q.ticketPriceMin.Some? ==> row.ticketPrice >= q.ticketPriceMin.value)
    && (q.ticketPriceMax.Some? ==> row.ticketPrice <= q.ticketPriceMax.value)
  }

  lemma HoldsStepText(cs: seq<Criterion>, column: Column, s: Option<string>, row: FlightRecord)
    ensures HoldsAll(StepText(cs, column, s), row) <==>
      HoldsAll(cs, row) && (Present(s) ==> ColumnValue(row, column) == Text(s.value))
  {
    if Present(s) { HoldsAllSnoc(cs, Criterion(column, Eq, Text(s.value)), row); }
  }

  lemma HoldsStepInt(cs: seq<Criterion>, column: Column, op: Op, v: Option<int>, row: FlightRecord)
    ensures HoldsAll(StepInt(cs, column, op, v), row) <==>
      HoldsAll(cs, row) && (v.Some? ==> Holds(Criterion(column, op, Int(v.value)), row))
  {
    if v.Some? { HoldsAllSnoc(cs, Criterion(column, op, Int(v.value)), row); }
  }

  lemma TextStepsMean(cs: seq<Criterion>, q: FlightQuery, row: FlightRecord)
    ensures HoldsAll(TextSteps(cs, q), row) <==> HoldsAll(cs, row) && MatchesTexts(q, row)
  {
    var t1 := StepText(cs, Number, q.number);
    HoldsStepText(cs, Number, q.number, row);
    HoldsStepText(t1, FromCity, q.fromCity, row);
    HoldsStepText(StepText(t1, FromCity, q.fromCity), ToCity, q.toCity, row);
  }

  lemma TimeStepsMean(cs: seq<Criterion>, q: FlightQuery, row: FlightRecord)
    ensures HoldsAll(TimeSteps(cs, q), row) <==> HoldsAll(cs, row) && MatchesTimes(q, row)
  {
    var d1 := StepInt(cs, Departure, Ge, q.departureMin);
    var d2 := StepInt(d1, Departure, Le, q.departureMax);
    var a1 := StepInt(d2, Arrival, Ge, q.arrivalMin);
    assert HoldsAll(d2, row) <==>
      && HoldsAll(cs, row)
      && (q.departureMin.Some? ==> row.departure >= q.departureMin.value)
      && (q.departureMax.Some? ==> row.departure <= q.departureMax.value)
    by {
      HoldsStepInt(cs, Departure, Ge, q.departureMin, row);
      HoldsStepInt(d1, Departure, Le, q.departureMax, row);
    }
    assert HoldsAll(TimeSteps(cs, q), row) <==>
      && HoldsAll(d2, row)
      && (q.arrivalMin.Some? ==> row.arrival >= q.arrivalMin.value)
      && (q.arrivalMax.Some? ==> row.arrival <= q.arrivalMax.value)
    by {
      HoldsStepInt(d2, Arrival, Ge, q.arrivalMin, row);
      HoldsStepInt(a1, Arrival, Le, q.arrivalMax, row);
    }
  }

  lemma CountStepsMean(cs: seq<Criterion>, q: FlightQuery, row: FlightRecord)
    ensures HoldsAll(CountSteps(cs, q), row) <==> HoldsAll(cs, row) && MatchesCounts(q, row)
  {
    HoldsStepInt(cs, PassengerCount, Ge, q.passengerCountMin, row);
    HoldsStepInt(StepInt(cs, PassengerCount, Ge, q.passengerCountMin), PassengerCount, Le, q.passengerCountMax, row);
  }

  lemma PriceStepsMean(cs: seq<Criterion>, q: FlightQuery, row: FlightRecord)
    ensures HoldsAll(PriceSteps(cs, q), row) <==> HoldsAll(cs, row) && MatchesPrices(q, row)
  {
    HoldsStepInt(cs, TicketPrice, Ge, q.ticketPriceMin, row);
    HoldsStepInt(StepInt(cs, TicketPrice, Ge, q.ticketPriceMin), TicketPrice, Le, q.ticketPriceMax, row);
  }

  /** The conditions the statement carries select exactly the rows the filter describes. */
  lemma CriteriaMeanMatches(q: FlightQuery, row: FlightRecord)
    ensures HoldsAll(Criteria(q), row) <==> Matches(q, row)
  {
    TextStepsMean([], q, row);
    TimeStepsMean(TextSteps([], q), q, row);
    CountStepsMean(TimeSteps(TextSteps([], q), q), q, row);
    PriceStepsMean(CountSteps(TimeSteps(TextSteps([], q), q), q), q, row);
  }

  /** The rows the statement selects, keyed by id; the order of the returned list is not modelled. */
  function Query(rows: map<int, FlightRecord>, q: FlightQuery): (r: map<int, FlightRecord>)
    ensures r.Keys <= rows.Keys
    ensures forall k :: k in r ==> r[k] == rows[k] && HoldsAll(Criteria(q), r[k])
  {
    map k | k in rows && HoldsAll(Criteria(q), rows[k]) :: rows[k]
  }

  /** The search returns exactly the rows the filter describes. */
  lemma QueryMeansMatches(rows: map<int, FlightRecord>, q: FlightQuery)
    ensures forall k :: k in Query(rows, q) <==> k in rows && Matches(q, rows[k])
  {
    forall k | k in rows {
      CriteriaMeanMatches(q, rows[k]);
    }
  }

  /** With every criterion absent the statement is the bare SELECT, binds nothing, and returns every flight. */
  lemma NoCriteriaReturnsAll(rows: map<int, FlightRecord>)
    ensures Built(Base, [], Criteria(NoCriteria))
    ensures Query(rows, NoCriteria) == rows
  {
    assert TextSteps([], NoCriteria) == [];
    assert Criteria(NoCriteria) == [];
    SeqAssoc(Base, "", "");
    assert forall k | k in rows :: HoldsAll(Criteria(NoCriteria), rows[k]);
    assert Query(rows, NoCriteria).Keys == rows.Keys;
  }

  /** A blank text criterion is treated exactly like a null one. */
  lemma BlankIsAbsent(q: FlightQuery, blank: string)
    requires IsBlank(blank)
    ensures Criteria(q.(number := Some(blank))) == Criteria(q.(number := None))
    ensures Criteria(q.(fromCity := Some(blank))) == Criteria(q.(fromCity := None))
    ensures Criteria(q.(toCity := Some(blank))) == Criteria(q.(toCity := None))
  {
  }
}
