/**
  Reading usage out of one ledger event: the recursive JSON walk that adds up
  token counters, and the fields by which `usage_totals` attributes an event.
 */
module UsageEvents {
  import opened Prelude

  datatype Json =
    | Null
    | Bool(b: bool)
    | Num(n: int)
    | Str(s: string)
    | Arr(items: seq<Json>)
    | Obj(fields: seq<Field>)
  datatype Field = Field(key: string, value: Json)

  datatype Kind = ModelUsage | CoordinatorCompleted | IndependentReview | Other(name: string)
  
  /** A decoded payload, by the keys `usage_totals` reads; an absent key is `Null`
      unless absence and null differ.  `resultIssue` is `result.issue_number` when
      `result` is an object. */
  datatype Payload =
    | NotAnObject
    | Payload(role: Option<Json>, issue: Json, resultIssue: Json, usage: Json)
  datatype Event = Event(at: int, kind: Kind, tick: Tick, payload: Payload)

  type Tick = Option<nat>
  datatype Role = Coordinator | Reviewer | Custom(text: string)

  /** What `usage_totals` reads off one event; `valid` says the payload is an object,
      `charge` is one call and the tokens it reports. */
  datatype Entry = Entry(at: int, kind: Kind, tick: Tick, valid: bool, role: Role, issue: Json, charge: Tally)

  datatype Tally = Tally(input: int, output: int, total: int, calls: int)

  const ZERO := Tally(0, 0, 0, 0)
  const ONE_CALL := Tally(0, 0, 0, 1)

  function Plus(a: Tally, b: Tally): Tally {
    Tally(a.input + b.input, a.output + b.output, a.total + b.total, a.calls + b.calls)
  }

  // ---------- the recursive walk over a usage payload ----------

  function Lower(c: char): char {
    if 'A' <= c <= 'Z' then c - 'A' + 'a' else if c == '-' then '_' else c
  }

  function Normalized(key: string): string {
    seq(|key|, i requires 0 <= i < |key| => Lower(key[i]))
  }

  /** What one number stored under `key` adds; unknown keys add nothing. */
  function Metric(key: string, n: int): Tally {
    var k := Normalized(key);
    if k in ["input_tokens", "inputtokens", "prompt_tokens"] then Tally(n, 0, 0, 0)
    else if k in ["output_tokens", "outputtokens", "completion_tokens"] then Tally(0, n, 0, 0)
    else if k in ["total_tokens", "totaltokens"] then Tally(0, 0, n, 0)
    else ZERO
  }

  function TokensIn(v: Json): Tally
    decreases v, 1
  {
    match v
    case Obj(fields) => TokensInFields(fields)
    case Arr(items) => TokensInItems(items)
    case _ => ZERO
  }

  function TokensInFields(fields: seq<Field>): Tally
    decreases fields, 0
  {
    if fields == [] then ZERO
    else Plus(TokensInFields(fields[..|fields| - 1]), FieldTokens(fields[|fields| - 1]))
  }

  function FieldTokens(f: Field): Tally
    decreases f, 0
  {
    if f.value.Num? then Metric(f.key, f.value.n) else TokensIn(f.value)
  }

  function TokensInItems(items: seq<Json>): Tally
    decreases items, 0
  {
    if items == [] then ZERO
    else Plus(TokensInItems(items[..|items| - 1]), TokensIn(items[|items| - 1]))
  }

  lemma FieldsUpTo(fields: seq<Field>, i: nat)
    requires i < |fields|
    ensures TokensInFields(fields[..i + 1]) == Plus(TokensInFields(fields[..i]), FieldTokens(fields[i]))
  {
    assert fields[..i + 1][..i] == fields[..i];
  }

  lemma ItemsUpTo(items: seq<Json>, i: nat)
    requires i < |items|
    ensures TokensInItems(items[..i + 1]) == Plus(TokensInItems(items[..i]), TokensIn(items[i]))
  {
    assert items[..i + 1][..i] == items[..i];
  }

  /** Capitals and dashes do not matter: a key and its spelling with them are the same. */
  lemma {:induction false} SpellingDoesNotMatter(key: string, other: string)
    requires |key| == |other|
    requires forall i :: 0 <= i < |key| ==> 'a' <= key[i] <= 'z' || key[i] == '_'
    requires forall i :: 0 <= i < |key| ==>
      other[i] == key[i] || (if key[i] == '_' then other[i] == '-' else other[i] == key[i] - 'a' + 'A')
    ensures Normalized(other) == key
  {
    assert forall i :: 0 <= i < |key| ==> Normalized(other)[i] == key[i];
  }

  function UsageObject(input: int, output: int, total: int): Json {
    Obj([Field("input_tokens", Num(input)), Field("output_tokens", Num(output)), Field("total_tokens", Num(total))])
  }

  lemma PlainKeys(n: int)
    ensures Metric("input_tokens", n) == Tally(n, 0, 0, 0)
    ensures Metric("output_tokens", n) == Tally(0, n, 0, 0)
    ensures Metric("total_tokens", n) == Tally(0, 0, n, 0)
  {
    SpellingDoesNotMatter("input_tokens", "input_tokens");
    SpellingDoesNotMatter("output_tokens", "output_tokens");
    SpellingDoesNotMatter("total_tokens", "total_tokens");
  }

  /** A provider's usage object is read as the numbers it shows, on its own or inside any
      member that is not a number itself. */
  lemma UsageObjectIsRead(input: int, output: int, total: int, key: string)
    ensures TokensIn(UsageObject(input, output, total)) == Tally(input, output, total, 0)
    ensures TokensIn(Obj([Field(key, UsageObject(input, output, total))])) == Tally(input, output, total, 0)
  {
    var a, b, c := Field("input_tokens", Num(input)), Field("output_tokens", Num(output)), Field("total_tokens", Num(total));
    PlainKeys(input);
    PlainKeys(output);
    PlainKeys(total);
    assert [a, b, c][..0 + 1] == [a] && [a, b, c][..1 + 1] == [a, b] && [a, b, c][..2 + 1] == [a, b, c];
    FieldsUpTo([a, b, c], 0);
    FieldsUpTo([a, b, c], 1);
    FieldsUpTo([a, b, c], 2);
    FieldsUpTo([Field(key, UsageObject(input, output, total))], 0);
  }

  lemma PlusAssociative(a: Tally, b: Tally, c: Tally)
    ensures Plus(Plus(a, b), c) == Plus(a, Plus(b, c))
  {
  }

  /** The `totals` dictionary that the nested `collect` mutates. */
  class Totals {
    var input: int
    var output: int
    var total: int
    var calls: int

    constructor ()
      ensures Sums() == ZERO
    {
      input, output, total, calls := 0, 0, 0, 0;
    }

    function Sums(): Tally
      reads this
    {
      Tally(input, output, total, calls)
    }

    method Add(key: string, n: int)
      modifies this
      ensures Sums() == Plus(old(Sums()), Metric(key, n))
      ensures var k := Normalized(key);
              && calls == old(calls)
              && input == (if k == "input_tokens" || k == "inputtokens" || k == "prompt_tokens" then old(input) + n else old(input))
              && output == (if k == "output_tokens" || k == "outputtokens" || k == "completion_tokens" then old(output) + n else old(output))
              && total == (if k == "total_tokens" || k == "totaltokens" then old(total) + n else old(total))
    {
      var k := Normalized(key);
      if k in ["input_tokens", "inputtokens", "prompt_tokens"] {
        input := input + n;
      } else if k in ["output_tokens", "outputtokens", "completion_tokens"] {
        output := output + n;
      } else if k in ["total_tokens", "totaltokens"] {
        total := total + n;
      }
    }

    /** One call and its usage. */
    method CountCall(usage: Json)
      modifies this
      ensures Sums() == Plus(old(Sums()), Plus(ONE_CALL, TokensIn(usage)))
    {
      calls := calls + 1;
      assert Sums() == Plus(old(Sums()), ONE_CALL);
      Collect(usage);
      PlusAssociative(old(Sums()), ONE_CALL, TokensIn(usage));
    }

    method Collect(v: Json)
      modifies this
      ensures Sums() == Plus(old(Sums()), TokensIn(v))
      decreases v, 1
    {
      if v.Obj? {
        CollectFields(v.fields);
      } else if v.Arr? {
        CollectItems(v.items);
      }
    }

    method CollectFields(fields: seq<Field>)
      modifies this
      ensures Sums() == Plus(old(Sums()), TokensInFields(fields))
      decreases fields, 0
    {
      for i := 0 to |fields|
        invariant Sums() == Plus(old(Sums()), TokensInFields(fields[..i]))
      {
        CollectField(fields[i]);
        FieldsUpTo(fields, i);
        PlusAssociative(old(Sums()), TokensInFields(fields[..i]), FieldTokens(fields[i]));
      }
      assert fields[..|fields|] == fields;
    }

    method CollectField(f: Field)
      modifies this
      ensures Sums() == Plus(old(Sums()), FieldTokens(f))
      decreases f, 0
    {
      if f.value.Num? {
        Add(f.key, f.value.n);
      } else if f.value.Obj? || f.value.Arr? {
        Collect(f.value);
      }
    }

    method CollectItems(items: seq<Json>)
      modifies this
      ensures Sums() == Plus(old(Sums()), TokensInItems(items))
      decreases items, 0
    {
      for i := 0 to |items|
        invariant Sums() == Plus(old(Sums()), TokensInItems(items[..i]))
      {
        Collect(items[i]);
        ItemsUpTo(items, i);
        PlusAssociative(old(Sums()), TokensInItems(items[..i]), TokensIn(items[i]));
      }
      assert items[..|items|] == items;
    }
  }

  // ---------- reading one event ----------

  /** The issue an event names: its own field, else the one inside `result`. */
  function EventIssue(p: Payload): Json {
    if p.NotAnObject? then Null else if p.issue.Null? then p.resultIssue else p.issue
  }

  /** Python's `==` between a JSON value and an integer: booleans are 0 and 1. */
  predicate EqualsInt(v: Json, n: int) {
    match v
    case Num(m) => m == n
    case Bool(b) => (if b then 1 else 0) == n
    case _ => false
  }

  /** `str(value)` for the role field, which the supervisor always writes as text. */
  function RoleNamed(v: Json): Role {
    match v
    case Str("coordinator") => Coordinator
    case Str("reviewer") => Reviewer
    case Str(s) => Custom(s)
    case Null => Custom("None")
    case Bool(b) => Custom(if b then "True" else "False")
    case _ => Custom("<structured>")
  }

  function RoleOf(e: Event): Role {
    match e.kind
    case ModelUsage => if e.payload.Payload? && e.payload.role.Some? then RoleNamed(e.payload.role.value) else Coordinator
    case IndependentReview => Reviewer
    case _ => Coordinator
  }

  function ChargeOf(p: Payload): Tally {
    if p.NotAnObject? then ZERO else Plus(ONE_CALL, TokensIn(p.usage))
  }

  function Read(e: Event): Entry {
    Entry(e.at, e.kind, e.tick, e.payload.Payload?, RoleOf(e), EventIssue(e.payload), ChargeOf(e.payload))
  }

  /** Whose call an event is about, and for which issue: a review is the reviewer's and a
      completion the coordinator's, whatever role they show; an issue of its own comes
      before the one inside the result. */
  lemma EventIsAttributed(at: int, tick: Tick, role: Option<Json>, issue: Json, resultIssue: Json, usage: Json)
    ensures RoleOf(Event(at, IndependentReview, tick, Payload(role, issue, resultIssue, usage))) == Reviewer
    ensures RoleOf(Event(at, CoordinatorCompleted, tick, Payload(role, issue, resultIssue, usage))) == Coordinator
    ensures RoleOf(Event(at, ModelUsage, tick, Payload(None, issue, resultIssue, usage))) == Coordinator
    ensures RoleOf(Event(at, ModelUsage, tick, Payload(Some(Str("reviewer")), issue, resultIssue, usage))) == Reviewer
    ensures issue != Null ==> EventIssue(Payload(role, issue, resultIssue, usage)) == issue
    ensures EventIssue(Payload(role, Null, resultIssue, usage)) == resultIssue
  {
  }
}
