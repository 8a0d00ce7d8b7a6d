/** What the query hooks hand to the query-cache library: cache keys,
    requests, the key prefixes a mutation invalidates on success, and the
    query strings they build with URLSearchParams.

    The library itself (caching, de-duplication, background refetch, polling
    timers) is not part of this model. Its one behaviour the hooks rely on is
    stated here as an assumption: invalidateQueries({ queryKey: f }) refreshes
    exactly the cached queries whose key starts with f (Touches). */
module QueryClient {
  import opened Common

  /** A JSON value as it appears in a key's parameter object or a request body. */
  datatype Json = JString(s: string) | JNumber(n: int) | JBool(b: bool) | JStrings(items: seq<string>)

  /** A JSON object; a property that is undefined is simply absent, as after JSON.stringify. */
  type Record = map<string, Json>

  /** One element of a query key: a string literal, a parameter object, or
      undefined (a list key built without parameters). */
  datatype KeyPart = Seg(name: string) | Params(record: Record) | Undefined

  type QueryKey = seq<KeyPart>

  predicate IsPrefix(p: QueryKey, k: QueryKey) {
    |p| <= |k| && k[..|p|] == p
  }

  /** The assumption about the library: a query is refreshed by a set of
      invalidation filters when one of them is a prefix of its key. */
  predicate Touches(filters: seq<QueryKey>, k: QueryKey) {
    exists f :: f in filters && IsPrefix(f, k)
  }

  lemma PrefixTransitive(a: QueryKey, b: QueryKey, c: QueryKey)
    requires IsPrefix(a, b) && IsPrefix(b, c)
    ensures IsPrefix(a, c)
  {
    assert c[..|a|] == c[..|b|][..|a|];
  }

  datatype Verb = Get | Post | Patch | Put | Delete

  /** A call through the API client: verb, path below the API origin and JSON body. */
  datatype Request = Request(verb: Verb, path: string, body: Option<Record>)

  /** What a query hook registers: its key, the request its query function
      issues, whether it is enabled, and its polling interval. */
  datatype Query = Query(key: QueryKey, request: Request, enabled: bool, refetchIntervalMs: Option<nat>)

  /** What a mutation hook does: the request it issues, and the key prefixes
      it invalidates once that request succeeds. */
  datatype Mutation = Mutation(request: Request, invalidates: seq<QueryKey>)

  // ---------------------------------------------------------------------
  // URLSearchParams

  type Pair = (string, string)

  predicate HasName(es: seq<Pair>, name: string) {
    exists i :: 0 <= i < |es| && es[i].0 == name
  }

  function Names(es: seq<Pair>): (r: seq<string>)
    ensures |r| == |es|
    ensures forall i :: 0 <= i < |es| ==> r[i] == es[i].0
  {
    if es == [] then [] else [es[0].0] + Names(es[1..])
  }

  /** URLSearchParams.get: the value of the first entry with that name. */
  function Lookup(es: seq<Pair>, name: string): (r: Option<string>)
    ensures r.None? <==> !HasName(es, name)
  {
    if es == [] then None
    else if es[0].0 == name then Some(es[0].1)
    else
      assert HasName(es, name) <==> HasName(es[1..], name) by {
        if HasName(es, name) {
          var i :| 0 <= i < |es| && es[i].0 == name;
          assert i > 0 && es[1..][i - 1].0 == name;
        }
        if HasName(es[1..], name) {
          var i :| 0 <= i < |es[1..]| && es[1..][i].0 == name;
          assert es[i + 1].0 == name;
        }
      }
      Lookup(es[1..], name)
  }

  function RemoveName(es: seq<Pair>, name: string): (r: seq<Pair>)
    ensures !HasName(r, name)
    ensures forall n :: n != name ==> Lookup(r, n) == Lookup(es, n)
  {
    if es == [] then []
    else if es[0].0 == name then RemoveName(es[1..], name)
    else [es[0]] + RemoveName(es[1..], name)
  }

  /** URLSearchParams.set: the first entry with that name takes the new
      value and later ones are removed; without one, the entry is appended.
      Afterwards the name has exactly the new value and no other name moved. */
  function SetParam(es: seq<Pair>, name: string, value: string): (r: seq<Pair>)
    ensures Lookup(r, name) == Some(value)
    ensures forall n :: n != name ==> Lookup(r, n) == Lookup(es, n)
  {
    if es == [] then [(name, value)]
    else if es[0].0 == name then [(name, value)] + RemoveName(es[1..], name)
    else [es[0]] + SetParam(es[1..], name, value)
  }

  /** Setting a name that is not there yet appends it. */
  lemma {:induction false} SetParamFresh(es: seq<Pair>, name: string, value: string)
    requires !HasName(es, name)
    ensures SetParam(es, name, value) == es + [(name, value)]
  {
    if es != [] {
      assert es[0].0 != name;
      SetParamFresh(es[1..], name, value);
      assert es == [es[0]] + es[1..];
    }
  }

  /** URLSearchParams.toString without percent-encoding: name=value entries joined by '&'. */
  function Serialize(es: seq<Pair>): (r: string)
    ensures r == "" <==> es == []
  {
    if es == [] then ""
    else if |es| == 1 then es[0].0 + "=" + es[0].1
    else es[0].0 + "=" + es[0].1 + "&" + Serialize(es[1..])
  }

  /** A path with "?qs" appended only when the query string is non-empty. */
  function WithQuery(path: string, qs: string): (r: string)
    ensures qs == "" ==> r == path
    ensures qs != "" ==> r == path + "?" + qs
  {
    if qs != "" then path + "?" + qs else path
  }

  /** A mutable URLSearchParams: its entries in insertion order. */
  class SearchParams {
    var entries: seq<Pair>

    constructor()
      ensures entries == []
    {
      entries := [];
    }

    method Set(name: string, value: string)
      modifies this
      ensures entries == SetParam(old(entries), name, value)
    {
      entries := SetParam(entries, name, value);
    }

    /** The k-th guarded set of a builder run cs: `if (present) set(name, value)`.
        With distinct names, the entries stay those Select gives for the
        sets made so far. */
    method SetCandidate(cs: seq<Candidate>, k: nat)
      requires k < |cs| && NoDuplicates(CandidateNames(cs))
      requires entries == Select(cs[..k])
      modifies this
      ensures entries == Select(cs[..k + 1])
    {
      SetStep(cs, k);
      if cs[k].present {
        Set(cs[k].name, cs[k].value);
      }
    }

    function ToString(): string
      reads this
    {
      Serialize(entries)
    }
  }

  // ---------------------------------------------------------------------
  // Conditional query-string builders

  /** One guarded `if (cond) searchParams.set(name, value)` of a builder. */
  datatype Candidate = Candidate(present: bool, name: string, value: string)

  /** JavaScript truthiness of an optional string: defined and not "". */
  predicate TruthyString(o: Option<string>) {
    o.Some? && o.value != ""
  }

  /** JavaScript truthiness of an optional integer-valued number: defined and not 0. */
  predicate TruthyNumber(o: Option<int>) {
    o.Some? && o.value != 0
  }

  /** `if (o) searchParams.set(name, o)` for an optional string. */
  function StringCandidate(name: string, o: Option<string>): Candidate {
    Candidate(TruthyString(o), name, o.GetOr(""))
  }

  /** `if (o) searchParams.set(name, String(o))` for an optional number. */
  function NumberCandidate(name: string, o: Option<int>): Candidate {
    Candidate(TruthyNumber(o), name, IntToString(o.GetOr(0)))
  }

  /** The record of a parameter object, with `name` present only when `o` is defined. */
  function WithString(r: Record, name: string, o: Option<string>): Record {
    if o.Some? then r[name := JString(o.value)] else r
  }

  function WithNumber(r: Record, name: string, o: Option<int>): Record {
    if o.Some? then r[name := JNumber(o.value)] else r
  }

  /** One property of a parameter object literal: omitted when undefined. */
  datatype Property = Property(name: string, value: Option<Json>)

  function PropertyNames(ps: seq<Property>): (r: seq<string>)
    ensures |r| == |ps|
    ensures forall i :: 0 <= i < |ps| ==> r[i] == ps[i].name
  {
    if ps == [] then [] else [ps[0].name] + PropertyNames(ps[1..])
  }

  /** The names of a run of properties, given position by position. */
  lemma PropertyNamesAre(ps: seq<Property>, names: seq<string>)
    requires |ps| == |names| && forall i :: 0 <= i < |ps| ==> ps[i].name == names[i]
    ensures PropertyNames(ps) == names
  {
  }

  /** The record of an object literal: its defined properties. */
  function RecordOf(ps: seq<Property>): Record
  {
    if ps == [] then map[]
    else
      var r := RecordOf(ps[..|ps| - 1]);
      var last := ps[|ps| - 1];
      if last.value.Some? then r[last.name := last.value.value] else r
  }

  /** A name no property carries is absent from the record. */
  lemma {:induction false} RecordOfAbsent(ps: seq<Property>, name: string)
    requires forall i :: 0 <= i < |ps| ==> ps[i].name != name
    ensures name !in RecordOf(ps)
  {
    if ps != [] {
      RecordOfAbsent(ps[..|ps| - 1], name);
    }
  }

  /** With distinct names, each property is in the record exactly when it
      is defined, with its own value. */
  lemma {:induction false} RecordOfLookup(ps: seq<Property>, k: nat)
    requires k < |ps| && NoDuplicates(PropertyNames(ps))
    ensures (ps[k].name in RecordOf(ps)) <==> ps[k].value.Some?
    ensures ps[k].value.Some? ==> RecordOf(ps)[ps[k].name] == ps[k].value.value
  {
    var init := ps[..|ps| - 1];
    var last := ps[|ps| - 1];
    if k == |ps| - 1 {
      if last.value.None? {
        assert forall i :: 0 <= i < |init| ==> init[i].name != last.name by {
          forall i | 0 <= i < |init| ensures init[i].name != last.name {
            assert PropertyNames(ps)[i] != PropertyNames(ps)[k];
          }
        }
        RecordOfAbsent(init, last.name);
      }
    } else {
      assert NoDuplicates(PropertyNames(init)) by {
        forall i, j | 0 <= i < j < |init| ensures PropertyNames(init)[i] != PropertyNames(init)[j] {
          assert PropertyNames(ps)[i] != PropertyNames(ps)[j];
        }
      }
      assert init[k] == ps[k] && last.name != ps[k].name by {
        assert PropertyNames(ps)[k] != PropertyNames(ps)[|ps| - 1];
      }
      RecordOfLookup(init, k);
    }
  }

  /** Reading a parameter object back: the property `name` when it holds a
      value of the expected kind, undefined otherwise. */
  function StringField(r: Record, name: string): Option<string> {
    if name in r && r[name].JString? then Some(r[name].s) else None
  }

  function NumberField(r: Record, name: string): Option<int> {
    if name in r && r[name].JNumber? then Some(r[name].n) else None
  }

  function BoolField(r: Record, name: string): Option<bool> {
    if name in r && r[name].JBool? then Some(r[name].b) else None
  }

  function CandidateNames(cs: seq<Candidate>): (r: seq<string>)
    ensures |r| == |cs|
    ensures forall i :: 0 <= i < |cs| ==> r[i] == cs[i].name
  {
    if cs == [] then [] else [cs[0].name] + CandidateNames(cs[1..])
  }

  /** The names of a run of candidates, given position by position. */
  lemma CandidateNamesAre(cs: seq<Candidate>, names: seq<string>)
    requires |cs| == |names| && forall i :: 0 <= i < |cs| ==> cs[i].name == names[i]
    ensures CandidateNames(cs) == names
  {
  }

  /** The entries a run of guarded sets with distinct names produces. */
  function Select(cs: seq<Candidate>): seq<Pair>
  {
    if cs == [] then []
    else (if cs[0].present then [(cs[0].name, cs[0].value)] else []) + Select(cs[1..])
  }

  /** A name occurs in the result only if some candidate carries it. */
  lemma {:induction false} SelectNames(cs: seq<Candidate>, name: string)
    requires HasName(Select(cs), name)
    ensures exists k :: 0 <= k < |cs| && cs[k].present && cs[k].name == name
  {
    var s := Select(cs);
    var i :| 0 <= i < |s| && s[i].0 == name;
    var head := if cs[0].present then [(cs[0].name, cs[0].value)] else [];
    if i < |head| {
      assert cs[0].present && cs[0].name == name;
    } else {
      assert Select(cs[1..])[i - |head|].0 == name;
      SelectNames(cs[1..], name);
      var k :| 0 <= k < |cs[1..]| && cs[1..][k].present && cs[1..][k].name == name;
      assert cs[k + 1].present && cs[k + 1].name == name;
    }
  }

  /** Adding one more guarded set at the end. */
  lemma {:induction false} SelectSnoc(cs: seq<Candidate>, c: Candidate)
    ensures Select(cs + [c]) == Select(cs) + (if c.present then [(c.name, c.value)] else [])
  {
    if cs == [] {
      assert [] + [c] == [c];
    } else {
      var head := if cs[0].present then [(cs[0].name, cs[0].value)] else [];
      var last := if c.present then [(c.name, c.value)] else [];
      var tail := Select(cs[1..]);
      assert (cs + [c])[0] == cs[0];
      assert (cs + [c])[1..] == cs[1..] + [c];
      SelectSnoc(cs[1..], c);
      assert Select(cs + [c]) == head + (tail + last);
      assert Select(cs) == head + tail;
      assert head + (tail + last) == (head + tail) + last;
    }
  }

  /** A name no present candidate carries does not occur in the result. */
  lemma {:induction false} SelectAbsent(cs: seq<Candidate>, name: string)
    requires forall j :: 0 <= j < |cs| && cs[j].present ==> cs[j].name != name
    ensures !HasName(Select(cs), name)
  {
    if cs != [] {
      SelectAbsent(cs[1..], name);
      var head := if cs[0].present then [(cs[0].name, cs[0].value)] else [];
      assert Select(cs) == head + Select(cs[1..]);
      forall i | 0 <= i < |Select(cs)| ensures Select(cs)[i].0 != name {
        if i >= |head| {
          assert Select(cs)[i] == Select(cs[1..])[i - |head|];
        }
      }
    }
  }

  /** With distinct names, no set before the k-th one used its name. */
  lemma NoEarlierName(cs: seq<Candidate>, k: nat)
    requires k < |cs| && NoDuplicates(CandidateNames(cs))
    ensures !HasName(Select(cs[..k]), cs[k].name)
  {
    var names := CandidateNames(cs);
    forall j | 0 <= j < k ensures cs[..k][j].name != cs[k].name {
      assert names[j] != names[k];
    }
    SelectAbsent(cs[..k], cs[k].name);
  }

  /** Select over one more candidate of the same run. */
  lemma SelectPrefixStep(cs: seq<Candidate>, k: nat)
    requires k < |cs|
    ensures Select(cs[..k + 1]) == Select(cs[..k]) + (if cs[k].present then [(cs[k].name, cs[k].value)] else [])
  {
    assert cs[..k + 1] == cs[..k] + [cs[k]];
    SelectSnoc(cs[..k], cs[k]);
  }

  /** The effect of the k-th guarded set, given distinct names: the entries
      built so far grow exactly as Select says. */
  lemma SetStep(cs: seq<Candidate>, k: nat)
    requires k < |cs| && NoDuplicates(CandidateNames(cs))
    ensures cs[k].present ==> Select(cs[..k + 1]) == SetParam(Select(cs[..k]), cs[k].name, cs[k].value)
    ensures !cs[k].present ==> Select(cs[..k + 1]) == Select(cs[..k])
  {
    SelectPrefixStep(cs, k);
    if cs[k].present {
      NoEarlierName(cs, k);
      SetParamFresh(Select(cs[..k]), cs[k].name, cs[k].value);
    } else {
      assert Select(cs[..k]) + [] == Select(cs[..k]);
    }
  }

  /** With distinct names, the value under a candidate's name is its value
      when it is present and absent otherwise. */
  lemma {:induction false} SelectLookup(cs: seq<Candidate>, k: nat)
    requires k < |cs| && NoDuplicates(CandidateNames(cs))
    ensures Lookup(Select(cs), cs[k].name) == if cs[k].present then Some(cs[k].value) else None
  {
    var head := if cs[0].present then [(cs[0].name, cs[0].value)] else [];
    var rest := cs[1..];
    assert NoDuplicates(CandidateNames(rest)) by {
      forall i, j | 0 <= i < j < |rest| ensures CandidateNames(rest)[i] != CandidateNames(rest)[j] {
        assert CandidateNames(cs)[i + 1] != CandidateNames(cs)[j + 1];
      }
    }
    if k == 0 {
      if !cs[0].present {
        forall j | 0 <= j < |rest| ensures rest[j].name != cs[0].name {
          assert CandidateNames(cs)[0] != CandidateNames(cs)[j + 1];
        }
        SelectAbsent(rest, cs[0].name);
        assert Select(cs) == Select(rest);
      }
    } else {
      SelectLookup(rest, k - 1);
      assert rest[k - 1] == cs[k];
      assert CandidateNames(cs)[0] != CandidateNames(cs)[k];
      var all := Select(cs);
      if cs[0].present {
        assert all == [(cs[0].name, cs[0].value)] + Select(rest);
        assert all[0].0 != cs[k].name;
        assert all[1..] == Select(rest);
      } else {
        assert all == Select(rest);
      }
    }
  }

  /** The entries name exactly the present candidates, in candidate order. */
  lemma {:induction false} SelectOrder(cs: seq<Candidate>)
    ensures IsSubsequence(Names(Select(cs)), CandidateNames(cs))
    ensures Select(cs) == [] <==> forall k :: 0 <= k < |cs| ==> !cs[k].present
  {
    if cs != [] {
      SelectOrder(cs[1..]);
      var rest := Select(cs[1..]);
      if cs[0].present {
        assert Names(Select(cs)) == [cs[0].name] + Names(rest);
        assert CandidateNames(cs) == [cs[0].name] + CandidateNames(cs[1..]);
      } else {
        assert Select(cs) == rest;
        assert CandidateNames(cs) == [cs[0].name] + CandidateNames(cs[1..]);
        SubsequenceSkip(Names(rest), CandidateNames(cs[1..]), cs[0].name);
        assert forall k :: 1 <= k < |cs| ==> cs[k] == cs[1..][k - 1];
      }
    }
  }

  /** a is a subsequence of b: a is obtained from b by deleting elements. */
  predicate IsSubsequence(a: seq<string>, b: seq<string>)
    decreases |b|
  {
    a == [] || (b != [] && if a[0] == b[0] then IsSubsequence(a[1..], b[1..]) else IsSubsequence(a, b[1..]))
  }

  lemma {:induction false} SubsequenceDropHead(a: seq<string>, b: seq<string>)
    requires a != [] && IsSubsequence(a, b)
    ensures IsSubsequence(a[1..], b)
    decreases |b|, 0
  {
    if a[0] != b[0] {
      SubsequenceDropHead(a, b[1..]);
      SubsequenceSkip(a[1..], b[1..], b[0]);
      assert b == [b[0]] + b[1..];
    } else if a[1..] != [] {
      SubsequenceSkip(a[1..], b[1..], b[0]);
      assert b == [b[0]] + b[1..];
    }
  }

  lemma {:induction false} SubsequenceSkip(a: seq<string>, b: seq<string>, x: string)
    requires IsSubsequence(a, b)
    ensures IsSubsequence(a, [x] + b)
    decreases |b|, 1
  {
    assert ([x] + b)[1..] == b;
    if a != [] && a[0] == x {
      SubsequenceDropHead(a, b);
    }
  }
}
