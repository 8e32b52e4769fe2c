/** Parameters read from Postgres into one flat map, and looked up by precedence. */
module Parameters {
  import opened Prelude

  datatype Row = Row(endpoint: string, name: string, value: string)

  const LEGACY := "SOLRISK_"

  function Key(endpoint: string, name: string): string {
    endpoint + ":" + name
  }

  predicate NoColon(s: string) {
    ':' !in s
  }

  function Get(m: map<string, string>, key: string): Option<string> {
    if key in m then Some(m[key]) else None
  }

  // ----- The map, as the refresh loop builds it -----

  function InsertIfAbsent(m: map<string, string>, key: string, value: string): map<string, string> {
    if key in m then m else m[key := value]
  }

  function AddRow(m: map<string, string>, row: Row): map<string, string> {
    var m1 := m[Key(row.endpoint, row.name) := row.value];
    var m2 := if row.endpoint == "*" then InsertIfAbsent(m1, row.name, row.value) else m1;
    if LEGACY <= row.name then InsertIfAbsent(m2, Key("*", row.name[|LEGACY|..]), row.value) else m2
  }

  function Build(rows: seq<Row>): map<string, string> {
    if rows == [] then map[] else AddRow(Build(rows[..|rows| - 1]), rows[|rows| - 1])
  }

  function FirstNonEmpty(slots: seq<Option<string>>): Option<string> {
    if slots == [] then None
    else if slots[0].Some? && slots[0].value != "" then slots[0]
    else FirstNonEmpty(slots[1..])
  }

  function LookupKeys(endpoint: string, name: string): seq<string> {
    [Key(endpoint, name), Key("*", name), LEGACY + name, name]
  }

  class ParametersCache {
    var entries: map<string, string>
    var lastFetch: Option<int>

    constructor ()
      ensures entries == map[] && lastFetch == None
    {
      entries, lastFetch := map[], None;
    }

    /** `rows` is the table read: None without a database, Some(Err) when it failed. */
    method Refresh(rows: Option<Result<seq<Row>, string>>, ttl: nat, now: int)
      modifies this
      ensures
        if rows.Some? && (old(lastFetch).Some? ==> now - old(lastFetch).value > ttl) then
          && lastFetch == Some(now)
          && entries == (if rows.value.Ok? then Build(rows.value.value) else old(entries))
        else entries == old(entries) && lastFetch == old(lastFetch)
    {
      if rows == None {
        return;
      }
      if lastFetch.Some? && !(now - lastFetch.value > ttl) {
        return;
      }
      if rows.value.Ok? {
        var all := rows.value.value;
        var built: map<string, string> := map[];
        for i := 0 to |all|
          invariant built == Build(all[..i])
        {
          assert all[..i + 1][..i] == all[..i];
          var row := all[i];
          built := built[row.endpoint + ":" + row.name := row.value];
          if row.endpoint == "*" && row.name !in built {
            built := built[row.name := row.value];
          }
          if LEGACY <= row.name {
            var stripped := row.name[|LEGACY|..];
            if "*" + ":" + stripped !in built {
              built := built["*" + ":" + stripped := row.value];
            }
          }
        }
        assert all[..|all|] == all;
        entries := built;
      }
      lastFetch := Some(now);
    }

    method LookupCached(endpoint: string, name: string) returns (r: Option<string>)
      ensures r == Lookup(entries, endpoint, name)
    {
      var keys := LookupKeys(endpoint, name);
      ghost var slots := SlotsOf(entries, endpoint, name);
      for i := 0 to |keys|
        invariant FirstNonEmpty(slots) == FirstNonEmpty(slots[i..])
      {
        if keys[i] in entries && entries[keys[i]] != "" {
          return Some(entries[keys[i]]);
        }
        assert slots[i..][1..] == slots[i + 1..];
      }
      return None;
    }
  }

  function SlotsOf(m: map<string, string>, endpoint: string, name: string): seq<Option<string>> {
    [Get(m, Key(endpoint, name)), Get(m, Key("*", name)), Get(m, LEGACY + name), Get(m, name)]
  }

  function Lookup(m: map<string, string>, endpoint: string, name: string): Option<string> {
    FirstNonEmpty(SlotsOf(m, endpoint, name))
  }

  // ----- The precedence rule, stated on the rows -----

  /** Value of the last row for (endpoint, name). */
  function LastRow(rows: seq<Row>, endpoint: string, name: string): Option<string> {
    if rows == [] then None
    else
      var last := rows[|rows| - 1];
      if last.endpoint == endpoint && last.name == name then Some(last.value)
      else LastRow(rows[..|rows| - 1], endpoint, name)
  }

  /** Value of the first row for (endpoint, name). */
  function FirstRow(rows: seq<Row>, endpoint: string, name: string): Option<string> {
    if rows == [] then None
    else
      var earlier := FirstRow(rows[..|rows| - 1], endpoint, name);
      var last := rows[|rows| - 1];
      if earlier.Some? then earlier
      else if last.endpoint == endpoint && last.name == name then Some(last.value)
      else None
  }

  /** Value of the first legacy row for a name, at any endpoint. */
  function FirstLegacy(rows: seq<Row>, name: string): Option<string> {
    if rows == [] then None
    else
      var earlier := FirstLegacy(rows[..|rows| - 1], name);
      if earlier.Some? then earlier
      else if rows[|rows| - 1].name == LEGACY + name then Some(rows[|rows| - 1].value)
      else None
  }

  /** The service-wide value: the "*" row, or else the first legacy row. */
  function ServiceWide(rows: seq<Row>, name: string): Option<string> {
    if LastRow(rows, "*", name).Some? then LastRow(rows, "*", name) else FirstLegacy(rows, name)
  }

  function Rule(rows: seq<Row>, endpoint: string, name: string): Option<string> {
    FirstNonEmpty([
      LastRow(rows, endpoint, name),
      ServiceWide(rows, name),
      FirstRow(rows, "*", LEGACY + name),
      FirstRow(rows, "*", name)])
  }

  predicate IsRow(r: Row, endpoint: string, name: string) {
    r.endpoint == endpoint && r.name == name
  }

  predicate HasRow(rows: seq<Row>, endpoint: string, name: string) {
    exists r | r in rows :: IsRow(r, endpoint, name)
  }

  predicate HasLegacy(rows: seq<Row>, name: string) {
    exists r | r in rows :: r.name == LEGACY + name
  }

  // ----- The slots of the built map, whatever the rows are called -----

  /** Only one key is spelled like this one: ':' occurs in it once. */
  lemma KeysAreInjective(e: string, p: string, e': string, p': string)
    requires NoColon(e) && NoColon(p)
    ensures Key(e, p) == Key(e', p') <==> e == e' && p == p'
  {
    if Key(e, p) == Key(e', p') {
      assert Key(e', p')[|e'|] == ':';
      assert |e'| == |e|;
      assert Key(e, p)[..|e|] == e && Key(e', p')[..|e'|] == e';
      assert Key(e, p)[|e| + 1..] == p && Key(e', p')[|e'| + 1..] == p';
    }
  }

  lemma PlainIsNoKey(e: string, p: string, name: string)
    requires NoColon(name)
    ensures Key(e, p) != name
  {
    assert Key(e, p)[|e|] == ':';
  }

  lemma LegacyStrips(name: string, p: string)
    ensures name == LEGACY + p <==> LEGACY <= name && name[|LEGACY|..] == p
  {
    if LEGACY <= name {
      assert name == LEGACY + name[|LEGACY|..];
    }
  }

  /** A legacy row for p, or a "*" row whose name spells the service-wide key of p. */
  predicate StandsIn(r: Row, p: string) {
    r.name == LEGACY + p || IsRow(r, "*", Key("*", p))
  }

  /** Value of the first row that fills the service-wide slot in the absence of a proper one. */
  function FirstStandIn(rows: seq<Row>, p: string): Option<string> {
    if rows == [] then None
    else
      var earlier := FirstStandIn(rows[..|rows| - 1], p);
      var last := rows[|rows| - 1];
      if earlier.Some? then earlier else if StandsIn(last, p) then Some(last.value) else None
  }

  function OrElse(a: Option<string>, b: Option<string>): Option<string> {
    if a.Some? then a else b
  }

  lemma {:induction false} EndpointSlot(rows: seq<Row>, e: string, p: string)
    requires NoColon(e) && NoColon(p) && e != "*"
    ensures Get(Build(rows), Key(e, p)) == OrElse(LastRow(rows, e, p), FirstRow(rows, "*", Key(e, p)))
  {
    if rows != [] {
      var init, last := rows[..|rows| - 1], rows[|rows| - 1];
      EndpointSlot(init, e, p);
      KeysAreInjective(e, p, last.endpoint, last.name);
      if LEGACY <= last.name {
        KeysAreInjective(e, p, "*", last.name[|LEGACY|..]);
      }
    }
  }

  lemma {:induction false} StarSlot(rows: seq<Row>, p: string)
    requires NoColon(p)
    ensures Get(Build(rows), Key("*", p)) == OrElse(LastRow(rows, "*", p), FirstStandIn(rows, p))
  {
    if rows != [] {
      var init, last := rows[..|rows| - 1], rows[|rows| - 1];
      StarSlot(init, p);
      KeysAreInjective("*", p, last.endpoint, last.name);
      LegacyStrips(last.name, p);
      if LEGACY <= last.name {
        KeysAreInjective("*", p, "*", last.name[|LEGACY|..]);
      }
    }
  }

  lemma {:induction false} PlainSlot(rows: seq<Row>, p: string)
    requires NoColon(p)
    ensures Get(Build(rows), p) == FirstRow(rows, "*", p)
  {
    if rows != [] {
      var init, last := rows[..|rows| - 1], rows[|rows| - 1];
      PlainSlot(init, p);
      PlainIsNoKey(last.endpoint, last.name, p);
      if LEGACY <= last.name {
        PlainIsNoKey("*", last.name[|LEGACY|..], p);
      }
    }
  }

  lemma FourSlots(a: Option<string>, b: Option<string>, c: Option<string>, d: Option<string>)
    ensures FirstNonEmpty([a, b, c, d]) ==
      if a.Some? && a.value != "" then a
      else if b.Some? && b.value != "" then b
      else if c.Some? && c.value != "" then c
      else if d.Some? && d.value != "" then d
      else None
  {
    assert [a, b, c, d][1..] == [b, c, d];
    assert [b, c, d][1..] == [c, d];
    assert [c, d][1..] == [d];
    assert [d][1..] == [];
    assert FirstNonEmpty([d]) == if d.Some? && d.value != "" then d else None;
    assert FirstNonEmpty([c, d]) == if c.Some? && c.value != "" then c else FirstNonEmpty([d]);
  }

  /** What the first slot holds. */
  function OwnSlot(rows: seq<Row>, e: string, p: string): Option<string> {
    if e == "*" then OrElse(LastRow(rows, "*", p), FirstStandIn(rows, p))
    else OrElse(LastRow(rows, e, p), FirstRow(rows, "*", Key(e, p)))
  }

  /** The answer to every lookup the service makes, for rows of any name: its endpoints and parameters hold no ':'. */
  lemma LookupReadsFourSlots(rows: seq<Row>, e: string, p: string)
    requires NoColon(e) && NoColon(p)
    ensures Lookup(Build(rows), e, p) == FirstNonEmpty([
      OwnSlot(rows, e, p),
      OrElse(LastRow(rows, "*", p), FirstStandIn(rows, p)),
      FirstRow(rows, "*", LEGACY + p),
      FirstRow(rows, "*", p)])
  {
    if e != "*" {
      EndpointSlot(rows, e, p);
    }
    StarSlot(rows, p);
    PlainSlot(rows, LEGACY + p);
    PlainSlot(rows, p);
  }

  // ----- When the lookup follows the rule -----

  /** Before any legacy row for p comes a "*" row that spells the service-wide key of p. */
  ghost predicate StarRowFirst(rows: seq<Row>, p: string) {
    exists i | 0 <= i < |rows| :: IsRow(rows[i], "*", Key("*", p)) && !HasLegacy(rows[..i], p)
  }

  /** A "*" row whose name spells one of the keys looked up takes the place of a row that is missing. */
  ghost predicate NamesCollide(rows: seq<Row>, e: string, p: string) {
    || (e != "*" && !HasRow(rows, e, p) && HasRow(rows, "*", Key(e, p)))
    || (!HasRow(rows, "*", p) && StarRowFirst(rows, p))
  }

  lemma {:induction false} RowValues(rows: seq<Row>, e: string, p: string)
    ensures LastRow(rows, e, p).Some? <==> HasRow(rows, e, p)
    ensures FirstRow(rows, e, p).Some? <==> HasRow(rows, e, p)
    ensures LastRow(rows, e, p).Some? ==> Row(e, p, LastRow(rows, e, p).value) in rows
    ensures FirstRow(rows, e, p).Some? ==> Row(e, p, FirstRow(rows, e, p).value) in rows
  {
    if rows != [] {
      var init, last := rows[..|rows| - 1], rows[|rows| - 1];
      RowValues(init, e, p);
      HasRowStep(init, last, e, p);
      assert rows == init + [last];
    }
  }

  lemma HasRowStep(init: seq<Row>, last: Row, e: string, p: string)
    ensures HasRow(init + [last], e, p) <==> HasRow(init, e, p) || IsRow(last, e, p)
  {
    var rows := init + [last];
    assert rows[|init|] == last;
    if r :| r in init && IsRow(r, e, p) {
      assert r in rows;
    }
  }

  lemma {:induction false} LegacyValue(rows: seq<Row>, p: string)
    ensures FirstLegacy(rows, p).Some? <==> HasLegacy(rows, p)
    ensures FirstLegacy(rows, p).Some? ==> exists r | r in rows :: r.name == LEGACY + p && r.value == FirstLegacy(rows, p).value
  {
    if rows != [] {
      var init, last := rows[..|rows| - 1], rows[|rows| - 1];
      LegacyValue(init, p);
      assert rows == init + [last];
    }
  }

  lemma StarRowFirstStep(init: seq<Row>, last: Row, p: string)
    ensures StarRowFirst(init + [last], p) <==>
      StarRowFirst(init, p) || (IsRow(last, "*", Key("*", p)) && !HasLegacy(init, p))
  {
    var rows := init + [last];
    assert rows[..|init|] == init && rows[|init|] == last;
    if i :| 0 <= i < |init| && IsRow(init[i], "*", Key("*", p)) && !HasLegacy(init[..i], p) {
      assert rows[i] == init[i] && rows[..i] == init[..i];
    }
    if i :| 0 <= i < |init| && IsRow(rows[i], "*", Key("*", p)) && !HasLegacy(rows[..i], p) {
      assert rows[i] == init[i] && rows[..i] == init[..i];
    }
  }

  lemma StarNameIsNoLegacy(p: string)
    requires NoColon(p)
    ensures Key("*", p) != LEGACY + p
  {
    PlainIsNoKey("*", p, LEGACY + p);
  }

  /** The stand-in is the legacy row of the rule, unless a "*" row came first. */
  lemma {:induction false} StandInIs(rows: seq<Row>, p: string)
    requires NoColon(p)
    ensures FirstStandIn(rows, p) == if StarRowFirst(rows, p) then FirstRow(rows, "*", Key("*", p)) else FirstLegacy(rows, p)
  {
    if rows != [] {
      var init, last := rows[..|rows| - 1], rows[|rows| - 1];
      assert rows == init + [last];
      StandInIs(init, p);
      StarRowFirstStep(init, last, p);
      StarNameIsNoLegacy(p);
      LegacyValue(init, p);
      RowValues(init, "*", Key("*", p));
      NoStarRowNoStandIn(init, p);
    }
  }

  lemma {:induction false} NoStarRowNoStandIn(rows: seq<Row>, p: string)
    ensures StarRowFirst(rows, p) ==> HasRow(rows, "*", Key("*", p))
    ensures HasRow(rows, "*", Key("*", p)) ==> StarRowFirst(rows, p) || HasLegacy(rows, p)
  {
    if rows != [] {
      var init, last := rows[..|rows| - 1], rows[|rows| - 1];
      assert rows == init + [last];
      NoStarRowNoStandIn(init, p);
      StarRowFirstStep(init, last, p);
    }
  }

  /** Where no name collides, the lookup follows the rule, repeated rows included. */
  lemma LookupFollowsTheRule(rows: seq<Row>, e: string, p: string)
    requires NoColon(e) && NoColon(p) && !NamesCollide(rows, e, p)
    ensures Lookup(Build(rows), e, p) == Rule(rows, e, p)
  {
    LookupReadsFourSlots(rows, e, p);
    StandInIs(rows, p);
    RowValues(rows, e, p);
    RowValues(rows, "*", p);
    RowValues(rows, "*", Key(e, p));
    var a, b := LastRow(rows, e, p), ServiceWide(rows, p);
    var c, d := FirstRow(rows, "*", LEGACY + p), FirstRow(rows, "*", p);
    FourSlots(a, b, c, d);
    FourSlots(OwnSlot(rows, e, p), b, c, d);
  }

  /** The same rows with other values. */
  function Refilled(rows: seq<Row>, values: seq<string>): seq<Row>
    requires |values| == |rows|
  {
    seq(|rows|, i requires 0 <= i < |rows| => rows[i].(value := values[i]))
  }

  /** Two tables that differ in their values only. */
  ghost predicate SameNames(rows: seq<Row>, other: seq<Row>) {
    |rows| == |other| && forall i | 0 <= i < |rows| :: rows[i].endpoint == other[i].endpoint && rows[i].name == other[i].name
  }

  lemma NamesAlike(rows: seq<Row>, other: seq<Row>, e: string, p: string)
    requires SameNames(rows, other)
    ensures HasRow(rows, e, p) ==> HasRow(other, e, p)
    ensures HasLegacy(rows, p) ==> HasLegacy(other, p)
  {
    if HasRow(rows, e, p) {
      var r :| r in rows && IsRow(r, e, p);
      var i :| 0 <= i < |rows| && rows[i] == r;
      assert other[i] in other;
    }
    if HasLegacy(rows, p) {
      var r :| r in rows && r.name == LEGACY + p;
      var i :| 0 <= i < |rows| && rows[i] == r;
      assert other[i] in other;
    }
  }

  lemma RefillingKeepsNames(rows: seq<Row>, values: seq<string>, e: string, p: string)
    requires |values| == |rows|
    ensures HasRow(Refilled(rows, values), e, p) <==> HasRow(rows, e, p)
    ensures HasLegacy(Refilled(rows, values), p) <==> HasLegacy(rows, p)
  {
    NamesAlike(rows, Refilled(rows, values), e, p);
    NamesAlike(Refilled(rows, values), rows, e, p);
  }

  lemma RefillingKeepsCollisions(rows: seq<Row>, values: seq<string>, e: string, p: string)
    requires |values| == |rows|
    ensures NamesCollide(Refilled(rows, values), e, p) <==> NamesCollide(rows, e, p)
  {
    var other := Refilled(rows, values);
    forall a, n {
      RefillingKeepsNames(rows, values, a, n);
    }
    forall i | 0 <= i <= |rows|
      ensures HasLegacy(other[..i], p) <==> HasLegacy(rows[..i], p)
    {
      assert other[..i] == Refilled(rows[..i], values[..i]);
      RefillingKeepsNames(rows[..i], values[..i], e, p);
    }
  }

  /** One name filled in, every other value blank. */
  function OnlyFilled(rows: seq<Row>, key: string): seq<string> {
    seq(|rows|, i requires 0 <= i < |rows| => if IsRow(rows[i], "*", key) then "x" else "")
  }

  lemma FilledRows(rows: seq<Row>, key: string, r: Row)
    requires r in Refilled(rows, OnlyFilled(rows, key))
    ensures r.value == if IsRow(r, "*", key) then "x" else ""
  {
  }

  /** The rule reads no row with ':' in its name. */
  lemma RuleIsBlank(rows: seq<Row>, key: string, e: string, p: string)
    requires NoColon(p) && ':' in key
    ensures Rule(Refilled(rows, OnlyFilled(rows, key)), e, p) == None
  {
    var other := Refilled(rows, OnlyFilled(rows, key));
    forall r | r in other && (r.name == p || r.name == LEGACY + p)
      ensures r.value == ""
    {
      FilledRows(rows, key, r);
    }
    RowValues(other, e, p);
    RowValues(other, "*", p);
    RowValues(other, "*", LEGACY + p);
    LegacyValue(other, p);
    FourSlots(LastRow(other, e, p), ServiceWide(other, p), FirstRow(other, "*", LEGACY + p), FirstRow(other, "*", p));
  }

  lemma FilledValue(rows: seq<Row>, key: string)
    requires HasRow(rows, "*", key)
    ensures FirstRow(Refilled(rows, OnlyFilled(rows, key)), "*", key) == Some("x")
  {
    var other := Refilled(rows, OnlyFilled(rows, key));
    RefillingKeepsNames(rows, OnlyFilled(rows, key), "*", key);
    RowValues(other, "*", key);
    FilledRows(rows, key, Row("*", key, FirstRow(other, "*", key).value));
  }

  /** On this content of a table with a collision, the lookup finds the colliding row and the rule finds nothing. */
  lemma CollisionShows(rows: seq<Row>, e: string, p: string) returns (values: seq<string>)
    requires NoColon(e) && NoColon(p) && NamesCollide(rows, e, p)
    ensures |values| == |rows|
    ensures Lookup(Build(Refilled(rows, values)), e, p) == Some("x") && Rule(Refilled(rows, values), e, p) == None
  {
    var own := e != "*" && !HasRow(rows, e, p) && HasRow(rows, "*", Key(e, p));
    var key := if own then Key(e, p) else Key("*", p);
    values := OnlyFilled(rows, key);
    var other := Refilled(rows, values);
    assert key[|key| - |p| - 1] == ':';
    RuleIsBlank(rows, key, e, p);
    RefillingKeepsCollisions(rows, values, e, p);
    RefillingKeepsNames(rows, values, e, p);
    RefillingKeepsNames(rows, values, "*", p);
    RefillingKeepsNames(rows, values, "*", Key(e, p));
    LookupReadsFourSlots(other, e, p);
    StandInIs(other, p);
    RowValues(other, e, p);
    RowValues(other, "*", p);
    RowValues(other, "*", Key(e, p));
    NoStarRowNoStandIn(rows, p);
    FilledValue(rows, key);
    if !own && e != "*" {
      KeysAreInjective(e, p, "*", p);
      OtherSlotIsBlank(rows, key, e, p);
    }
    FourSlots(OwnSlot(other, e, p), OrElse(LastRow(other, "*", p), FirstStandIn(other, p)),
              FirstRow(other, "*", LEGACY + p), FirstRow(other, "*", p));
  }

  lemma OtherSlotIsBlank(rows: seq<Row>, key: string, e: string, p: string)
    requires NoColon(p) && ':' in key && e != "*" && Key(e, p) != key
    ensures
      var own := OwnSlot(Refilled(rows, OnlyFilled(rows, key)), e, p);
      own.Some? ==> own.value == ""
  {
    var other := Refilled(rows, OnlyFilled(rows, key));
    RowValues(other, e, p);
    RowValues(other, "*", Key(e, p));
    if LastRow(other, e, p).Some? {
      FilledRows(rows, key, Row(e, p, LastRow(other, e, p).value));
    } else if FirstRow(other, "*", Key(e, p)).Some? {
      FilledRows(rows, key, Row("*", Key(e, p), FirstRow(other, "*", Key(e, p)).value));
    }
  }

  /** A table answers a lookup by the rule, whatever its values, exactly when no name in it collides. */
  lemma RuleHoldsIff(rows: seq<Row>, e: string, p: string)
    requires NoColon(e) && NoColon(p)
    ensures
      (forall values: seq<string> | |values| == |rows| ::
         Lookup(Build(Refilled(rows, values)), e, p) == Rule(Refilled(rows, values), e, p))
      <==> !NamesCollide(rows, e, p)
  {
    if NamesCollide(rows, e, p) {
      var values := CollisionShows(rows, e, p);
    } else {
      forall values: seq<string> | |values| == |rows|
        ensures Lookup(Build(Refilled(rows, values)), e, p) == Rule(Refilled(rows, values), e, p)
      {
        RefillingKeepsCollisions(rows, values, e, p);
        LookupFollowsTheRule(Refilled(rows, values), e, p);
      }
    }
  }

  /** One service-wide row, named like an endpoint key, decides who is paid on that endpoint. */
  lemma StarRowTakesOver(value: string)
    requires value != ""
    ensures
      var rows := [Row("*", "wallet-risk:X402_PAY_TO", value)];
      && Lookup(Build(rows), "wallet-risk", "X402_PAY_TO") == Some(value)
      && Rule(rows, "wallet-risk", "X402_PAY_TO") == None
  {
    var e, p, r := "wallet-risk", "X402_PAY_TO", Row("*", "wallet-risk:X402_PAY_TO", value);
    var rows := [r];
    assert Key(e, p) == r.name && r.name[11] == ':';
    assert NoColon(p) && NoColon(LEGACY + p);
    assert e[0] != '*';
    StandInNamedOtherwise(rows, e, p, value);
    LookupReadsFourSlots(rows, e, p);
    FourSlots(Some(value), None, None, None);
    FourSlots(None, None, None, None);
  }

  /** A table with nothing but the row that spells the endpoint's key. */
  lemma StandInNamedOtherwise(rows: seq<Row>, e: string, p: string, value: string)
    requires NoColon(e) && NoColon(p) && e != "*" && rows == [Row("*", Key(e, p), value)]
    ensures OwnSlot(rows, e, p) == Some(value)
    ensures LastRow(rows, e, p) == LastRow(rows, "*", p) == FirstStandIn(rows, p) == FirstLegacy(rows, p) == None
    ensures FirstRow(rows, "*", LEGACY + p) == FirstRow(rows, "*", p) == None
  {
    var key := Key(e, p);
    assert key[|e|] == ':';
    assert NoColon(LEGACY + p);
    RowValues(rows, e, p);
    RowValues(rows, "*", p);
    RowValues(rows, "*", LEGACY + p);
    RowValues(rows, "*", key);
    LegacyValue(rows, p);
    KeysAreInjective(e, p, "*", p);
    StandInIs(rows, p);
    NoStarRowNoStandIn(rows, p);
    assert rows[0] in rows;
  }

  // ----- Row order, for rows of any name -----

  /** The row sets this key of the map, whatever it held. */
  predicate Writes(r: Row, k: string) {
    Key(r.endpoint, r.name) == k
  }

  /** The row sets this key of the map where it is absent. */
  predicate Fills(r: Row, k: string) {
    || (r.endpoint == "*" && r.name == k)
    || (LEGACY <= r.name && Key("*", r.name[|LEGACY|..]) == k)
  }

  predicate HasWriter(rows: seq<Row>, k: string) {
    exists r | r in rows :: Writes(r, k)
  }

  function LastWriter(rows: seq<Row>, k: string): Option<string> {
    if rows == [] then None
    else
      var last := rows[|rows| - 1];
      if Writes(last, k) then Some(last.value) else LastWriter(rows[..|rows| - 1], k)
  }

  function FirstFiller(rows: seq<Row>, k: string): Option<string> {
    if rows == [] then None
    else
      var earlier, last := FirstFiller(rows[..|rows| - 1], k), rows[|rows| - 1];
      if earlier.Some? then earlier else if Fills(last, k) then Some(last.value) else None
  }

  lemma NeverBoth(r: Row, k: string)
    ensures !(Writes(r, k) && Fills(r, k))
  {
    assert |Key(r.endpoint, r.name)| == |r.endpoint| + 1 + |r.name|;
  }

  /** Every key of the map holds its last writer's value, or else its first filler's. */
  lemma {:induction false} EverySlot(rows: seq<Row>, k: string)
    ensures Get(Build(rows), k) == OrElse(LastWriter(rows, k), FirstFiller(rows, k))
  {
    if rows != [] {
      var init, last := rows[..|rows| - 1], rows[|rows| - 1];
      EverySlot(init, k);
      NeverBoth(last, k);
    }
  }

  lemma {:induction false} WriterValue(rows: seq<Row>, k: string)
    ensures LastWriter(rows, k).Some? <==> HasWriter(rows, k)
    ensures LastWriter(rows, k).Some? ==> exists r | r in rows :: Writes(r, k) && r.value == LastWriter(rows, k).value
  {
    if rows != [] {
      var init, last := rows[..|rows| - 1], rows[|rows| - 1];
      WriterValue(init, k);
      assert rows == init + [last];
      assert forall r :: r in rows <==> r in init || r == last;
    }
  }

  lemma {:induction false} FillerValue(rows: seq<Row>, k: string)
    ensures FirstFiller(rows, k).Some? <==> exists r | r in rows :: Fills(r, k)
    ensures FirstFiller(rows, k).Some? ==> exists r | r in rows :: Fills(r, k) && r.value == FirstFiller(rows, k).value
  {
    if rows != [] {
      var init, last := rows[..|rows| - 1], rows[|rows| - 1];
      FillerValue(init, k);
      assert rows == init + [last];
      assert forall r :: r in rows <==> r in init || r == last;
    }
  }

  /** Rows with the same key agree on the value, and so do rows that would fill the same key, unless some row writes it. */
  ghost predicate OrderFree(rows: seq<Row>) {
    && (forall r, q | r in rows && q in rows && Key(r.endpoint, r.name) == Key(q.endpoint, q.name) :: r.value == q.value)
    && (forall r, q, k | r in rows && q in rows && Fills(r, k) && Fills(q, k) :: r.value == q.value || HasWriter(rows, k))
  }

  /** The same rows, in whatever order. */
  ghost predicate SameRows(a: seq<Row>, b: seq<Row>) {
    multiset(a) == multiset(b)
  }

  lemma SameMembers(a: seq<Row>, b: seq<Row>)
    requires SameRows(a, b)
    ensures forall r :: r in a <==> r in b
  {
    assert forall r :: (r in a <==> r in multiset(a)) && (r in b <==> r in multiset(b));
  }

  lemma SameSlot(a: seq<Row>, b: seq<Row>, k: string)
    requires OrderFree(a) && SameRows(a, b)
    ensures Get(Build(a), k) == Get(Build(b), k)
  {
    SameMembers(a, b);
    EverySlot(a, k);
    EverySlot(b, k);
    WriterValue(a, k);
    WriterValue(b, k);
    FillerValue(a, k);
    FillerValue(b, k);
  }

  lemma {:induction false} FrontFiller(r: Row, rest: seq<Row>, k: string)
    requires Fills(r, k)
    ensures FirstFiller([r] + rest, k) == Some(r.value)
  {
    if rest == [] {
      assert [r] + rest == [r];
      assert [r][..0] == [];
    } else {
      FrontFiller(r, rest[..|rest| - 1], k);
      assert ([r] + rest)[..|rest|] == [r] + rest[..|rest| - 1];
    }
  }

  /** Moved to the end, a row decides the key that it writes. */
  lemma EndRowWins(a: seq<Row>, r: Row) returns (b: seq<Row>)
    requires r in a
    ensures SameRows(a, b) && Get(Build(b), Key(r.endpoint, r.name)) == Some(r.value)
  {
    var left, right := SplitAt(a, r);
    b := left + right + [r];
    EverySlot(b, Key(r.endpoint, r.name));
  }

  /** Moved to the front, a row decides a key that it fills, where no row writes it. */
  lemma FrontRowWins(a: seq<Row>, r: Row, k: string) returns (b: seq<Row>)
    requires r in a && Fills(r, k) && !HasWriter(a, k)
    ensures SameRows(a, b) && Get(Build(b), k) == Some(r.value)
  {
    var left, right := SplitAt(a, r);
    b := [r] + (left + right);
    SameMembers(a, b);
    EverySlot(b, k);
    WriterValue(b, k);
    FrontFiller(r, left + right, k);
  }

  /** Every order of a table builds the same map exactly when its rows agree wherever they meet. */
  lemma RowOrderIsIrrelevantIff(a: seq<Row>)
    ensures (forall b | SameRows(a, b) :: Build(b) == Build(a)) <==> OrderFree(a)
  {
    if OrderFree(a) {
      forall b | SameRows(a, b)
        ensures Build(b) == Build(a)
      {
        forall k | k in Build(a) || k in Build(b)
          ensures Get(Build(a), k) == Get(Build(b), k)
        {
          SameSlot(a, b, k);
        }
      }
    } else if r, q :| r in a && q in a && Key(r.endpoint, r.name) == Key(q.endpoint, q.name) && r.value != q.value {
      var b := EndRowWins(a, r);
      var d := EndRowWins(a, q);
      assert Build(b) != Build(d);
    } else {
      var r, q, k :| r in a && q in a && Fills(r, k) && Fills(q, k) && r.value != q.value && !HasWriter(a, k);
      var b := FrontRowWins(a, r, k);
      var d := FrontRowWins(a, q, k);
      assert Build(b) != Build(d);
    }
  }

  ghost predicate WellNamed(rows: seq<Row>) {
    forall r | r in rows :: NoColon(r.endpoint) && NoColon(r.name)
  }

  ghost predicate UniqueRows(rows: seq<Row>) {
    forall r, q | r in rows && q in rows && r.endpoint == q.endpoint && r.name == q.name :: r == q
  }

  /** Legacy rows for one name agree on the value, unless a service-wide row overrules them all. */
  ghost predicate LegacyIsSettled(rows: seq<Row>) {
    forall r, q, p | r in rows && q in rows && r.name == q.name == LEGACY + p ::
      r.value == q.value || HasRow(rows, "*", p)
  }

  /** In a table with one value for each endpoint and name, and no ':' in them, only the legacy rows can disagree. */
  lemma OnlyLegacyRowsMeet(rows: seq<Row>)
    requires WellNamed(rows) && UniqueRows(rows)
    ensures OrderFree(rows) <==> LegacyIsSettled(rows)
  {
    forall r, q | r in rows && q in rows
      ensures Key(r.endpoint, r.name) == Key(q.endpoint, q.name) <==> r.endpoint == q.endpoint && r.name == q.name
    {
      KeysAreInjective(r.endpoint, r.name, q.endpoint, q.name);
    }
    forall r, q, k | r in rows && q in rows && Fills(r, k) && Fills(q, k) && LegacyIsSettled(rows)
      ensures r.value == q.value || HasWriter(rows, k)
    {
      FillersOfOneKey(rows, r, q, k);
    }
    forall r, q, p | r in rows && q in rows && r.name == q.name == LEGACY + p && OrderFree(rows)
      ensures r.value == q.value || HasRow(rows, "*", p)
    {
      LegacyStrips(r.name, p);
      assert Fills(r, Key("*", p)) && Fills(q, Key("*", p));
      WriterOfStarKey(rows, p);
    }
  }

  lemma WriterOfStarKey(rows: seq<Row>, p: string)
    requires WellNamed(rows)
    ensures HasWriter(rows, Key("*", p)) <==> HasRow(rows, "*", p)
  {
    forall r | r in rows
      ensures Writes(r, Key("*", p)) <==> IsRow(r, "*", p)
    {
      KeysAreInjective(r.endpoint, r.name, "*", p);
    }
  }

  lemma FillersOfOneKey(rows: seq<Row>, r: Row, q: Row, k: string)
    requires WellNamed(rows) && UniqueRows(rows) && LegacyIsSettled(rows)
    requires r in rows && q in rows && Fills(r, k) && Fills(q, k)
    ensures r.value == q.value || HasWriter(rows, k)
  {
    if ':' in k {
      var p := k[2..];
      LegacyStrips(r.name, p);
      LegacyStrips(q.name, p);
      WriterOfStarKey(rows, p);
    } else {
      assert forall p :: Key("*", p)[1] == ':';
    }
  }

  /** Two legacy rows of one name with different values build two maps in their two orders. */
  lemma LegacyOrderMatters(e1: string, e2: string, p: string, v1: string, v2: string)
    requires v1 != v2
    ensures
      var one, two := Row(e1, LEGACY + p, v1), Row(e2, LEGACY + p, v2);
      Build([one, two]) != Build([two, one])
  {
    TwoLegacyRows(Row(e1, LEGACY + p, v1), Row(e2, LEGACY + p, v2), p);
    TwoLegacyRows(Row(e2, LEGACY + p, v2), Row(e1, LEGACY + p, v1), p);
  }

  lemma TwoLegacyRows(first: Row, second: Row, p: string)
    requires first.name == second.name == LEGACY + p
    ensures Get(Build([first, second]), Key("*", p)) == Some(first.value)
  {
    LegacyStrips(first.name, p);
    assert |Key(first.endpoint, first.name)| > |Key("*", p)| && |Key(second.endpoint, second.name)| > |Key("*", p)|;
    EverySlot([first, second], Key("*", p));
    WriterValue([first, second], Key("*", p));
    FrontFiller(first, [second], Key("*", p));
    assert [first] + [second] == [first, second];
  }
}
