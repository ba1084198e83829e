/** The parameter store client (src/util/ssmAPIUtil.ts): put, get and delete of single string
    values. The store's contents are the only state that outlives an invocation. */
module Parameters {
  import opened Outcomes

  /** What a store request leaves behind: its outcome and the store's new contents. */
  datatype Effect = Effect(outcome: Result<()>, params: map<string, string>)

  /** One put request: a name and the value to store under it. */
  datatype Write = Write(name: string, value: string)

  function PutFailure(name: string): Failure { Thrown("Failed to put parameter - " + name) }
  function RetrieveFailure(name: string): Failure { Thrown("Failed to retrieve parameter - " + name) }
  function DeleteFailure(name: string): Failure { Thrown("Failed to delete parameter - " + name) }

  /** `m` and `m'` agree on key `k`: both lack it, or both map it to the same value. */
  predicate SameAt(m: map<string, string>, m': map<string, string>, k: string) {
    (k in m <==> k in m') && (k in m ==> m[k] == m'[k])
  }

  /** `storeParameter`: a put with Overwrite set. `reachable` is false when the service fails
      the request; the failure is re-thrown under a fixed message. */
  function Put(m: map<string, string>, name: string, value: string, reachable: bool): (e: Effect)
    ensures e.outcome.Ok? <==> reachable
    ensures e.outcome.Ok? ==> name in e.params && e.params[name] == value
    ensures e.outcome.Err? ==> e.outcome.error == PutFailure(name) && e.params == m
    ensures forall k :: k != name ==> SameAt(m, e.params, k)
  {
    if reachable then Effect(Ok(()), m[name := value]) else Effect(Err(PutFailure(name)), m)
  }

  /** `retrieveParameter`: the value, when the service answers and the value is present and
      non-empty (a truthiness test); otherwise a fixed error. */
  function Get(m: map<string, string>, name: string, reachable: bool): (r: Result<string>)
    ensures r.Ok? <==> reachable && name in m && m[name] != ""
    ensures r.Ok? ==> r.value == m[name]
    ensures r.Err? ==> r.error == RetrieveFailure(name)
  {
    if reachable && name in m && m[name] != "" then Ok(m[name]) else Err(RetrieveFailure(name))
  }

  /** A get of `name` when the service fails every request about a name in `unreachable`. */
  function Read(m: map<string, string>, name: string, unreachable: set<string>): Result<string> {
    Get(m, name, name !in unreachable)
  }

  /** `deleteParameter`: removes the key. The service reports a missing key as an error, and
      every error is re-thrown under a fixed message. */
  function Remove(m: map<string, string>, name: string, reachable: bool): (e: Effect)
    ensures e.outcome.Ok? <==> reachable && name in m
    ensures e.outcome.Ok? ==> e.params == m - {name}
    ensures e.outcome.Err? ==> e.outcome.error == DeleteFailure(name) && e.params == m
  {
    if reachable && name in m then Effect(Ok(()), m - {name}) else Effect(Err(DeleteFailure(name)), m)
  }

  /** A put is read back unchanged, unless the value is empty, which a get refuses. */
  lemma GetAfterPut(m: map<string, string>, name: string, value: string)
    ensures Get(Put(m, name, value, true).params, name, true)
            == if value != "" then Ok(value) else Err(RetrieveFailure(name))
  {
  }

  /** A put or a delete of one name does not change what a get of another name returns. */
  lemma OtherNamesUnaffected(m: map<string, string>, name: string, value: string, other: string, reachable: bool, answers: bool)
    requires other != name
    ensures Get(Put(m, name, value, reachable).params, other, answers) == Get(m, other, answers)
    ensures Get(Remove(m, name, reachable).params, other, answers) == Get(m, other, answers)
  {
  }

  /** A deleted name can no longer be read. */
  lemma GetAfterRemove(m: map<string, string>, name: string, answers: bool)
    ensures Get(Remove(m, name, true).params, name, answers) == Err(RetrieveFailure(name))
  {
  }

  /** The store after `writes` have all been applied, first to last. */
  function Overwrite(m: map<string, string>, writes: seq<Write>): map<string, string>
    decreases |writes|
  {
    if writes == [] then m else Overwrite(m[writes[0].name := writes[0].value], writes[1..])
  }

  /** A sequence of awaited puts: the first failure stops the sequence, earlier puts stay. */
  function PutAll(m: map<string, string>, writes: seq<Write>, unreachable: set<string>): (e: Effect)
    decreases |writes|
    ensures e.outcome.Ok? <==> forall i :: 0 <= i < |writes| ==> writes[i].name !in unreachable
    ensures e.outcome.Ok? ==> e.params == Overwrite(m, writes)
  {
    if writes == [] then Effect(Ok(()), m)
    else
      var first := Put(m, writes[0].name, writes[0].value, writes[0].name !in unreachable);
      if first.outcome.Err? then first else PutAll(first.params, writes[1..], unreachable)
  }

  /** Where a sequence of puts fails: at the first unreachable name, with every earlier write in place. */
  lemma {:induction false} PutAllStopsAt(m: map<string, string>, writes: seq<Write>, unreachable: set<string>, i: nat)
    requires i < |writes| && writes[i].name in unreachable
    requires forall j :: 0 <= j < i ==> writes[j].name !in unreachable
    ensures PutAll(m, writes, unreachable) == Effect(Err(PutFailure(writes[i].name)), Overwrite(m, writes[..i]))
    decreases i
  {
    if i > 0 {
      var m' := m[writes[0].name := writes[0].value];
      PutAllStopsAt(m', writes[1..], unreachable, i - 1);
      assert writes[1..][..i - 1] == writes[..i][1..];
    }
  }

  /** Whichever put fails, a name no write touches keeps its old entry, and no name is lost. */
  lemma {:induction false} PutAllFrame(m: map<string, string>, writes: seq<Write>, unreachable: set<string>, k: string)
    requires forall i :: 0 <= i < |writes| ==> writes[i].name != k
    ensures SameAt(m, PutAll(m, writes, unreachable).params, k)
    ensures m.Keys <= PutAll(m, writes, unreachable).params.Keys
    decreases |writes|
  {
    if writes != [] && writes[0].name !in unreachable {
      PutAllFrame(m[writes[0].name := writes[0].value], writes[1..], unreachable, k);
    }
  }

  /** A name no write touches keeps its old entry. */
  lemma {:induction false} OverwriteKeeps(m: map<string, string>, writes: seq<Write>, k: string)
    requires forall i :: 0 <= i < |writes| ==> writes[i].name != k
    ensures SameAt(m, Overwrite(m, writes), k)
    decreases |writes|
  {
    if writes != [] {
      OverwriteKeeps(m[writes[0].name := writes[0].value], writes[1..], k);
    }
  }

  /** With distinct names, each written name holds the value written to it. */
  lemma {:induction false} OverwriteHolds(m: map<string, string>, writes: seq<Write>, i: nat)
    requires i < |writes|
    requires forall a, b :: 0 <= a < b < |writes| ==> writes[a].name != writes[b].name
    ensures writes[i].name in Overwrite(m, writes) && Overwrite(m, writes)[writes[i].name] == writes[i].value
    decreases |writes|
  {
    var m' := m[writes[0].name := writes[0].value];
    if i == 0 {
      OverwriteKeeps(m', writes[1..], writes[0].name);
    } else {
      OverwriteHolds(m', writes[1..], i - 1);
    }
  }

  lemma {:induction false} OverwriteConcat(m: map<string, string>, a: seq<Write>, b: seq<Write>)
    ensures Overwrite(Overwrite(m, a), b) == Overwrite(m, a + b)
    decreases |a|
  {
    if a != [] {
      var m' := m[a[0].name := a[0].value];
      OverwriteConcat(m', a[1..], b);
      assert (a + b)[0] == a[0] && (a + b)[1..] == a[1..] + b;
      assert Overwrite(m, a + b) == Overwrite(m', a[1..] + b);
      assert Overwrite(m, a) == Overwrite(m', a[1..]);
    } else {
      assert a + b == b;
    }
  }

  /** The keys of `names`. */
  function KeySet(names: seq<string>): set<string> {
    set k | k in names
  }

  /** A sequence of awaited deletes: the first failure stops the sequence, earlier deletes stay. */
  function RemoveAll(m: map<string, string>, names: seq<string>, unreachable: set<string>): (e: Effect)
    decreases |names|
  {
    if names == [] then Effect(Ok(()), m)
    else
      var first := Remove(m, names[0], names[0] !in unreachable);
      if first.outcome.Err? then first
      else RemoveAll(first.params, names[1..], unreachable)
  }

  /** When every delete succeeds, each name was reachable and present, and exactly the names are gone. */
  lemma {:induction false} RemoveAllOk(m: map<string, string>, names: seq<string>, unreachable: set<string>)
    requires RemoveAll(m, names, unreachable).outcome.Ok?
    ensures RemoveAll(m, names, unreachable).params == m - KeySet(names)
    ensures forall i :: 0 <= i < |names| ==> names[i] !in unreachable && names[i] in m
    decreases |names|
  {
    if names != [] {
      RemoveAllOk(m - {names[0]}, names[1..], unreachable);
      assert KeySet(names) == {names[0]} + KeySet(names[1..]);
      assert forall i :: 1 <= i < |names| ==> names[i] == names[1..][i - 1];
    }
  }

  /** One step of a sequence of deletes, taken from position `k`. */
  lemma RemoveAllStep(m: map<string, string>, names: seq<string>, k: nat, unreachable: set<string>)
    requires k < |names|
    ensures RemoveAll(m, names[k..], unreachable)
            == if names[k] in unreachable || names[k] !in m then Effect(Err(DeleteFailure(names[k])), m)
               else RemoveAll(m - {names[k]}, names[k + 1..], unreachable)
  {
    assert names[k..][1..] == names[k + 1..];
  }

  /** Whichever delete fails, a name not in `names` keeps its entry. */
  lemma {:induction false} RemoveAllFrame(m: map<string, string>, names: seq<string>, unreachable: set<string>, k: string)
    requires k !in names
    ensures SameAt(m, RemoveAll(m, names, unreachable).params, k)
    decreases |names|
  {
    if names != [] && names[0] !in unreachable && names[0] in m {
      assert k !in names[1..];
      RemoveAllFrame(m - {names[0]}, names[1..], unreachable, k);
    }
  }

  /** Deleting distinct names that are all present and reachable removes exactly those names. */
  lemma {:induction false} RemoveAllSucceeds(m: map<string, string>, names: seq<string>, unreachable: set<string>)
    requires forall i, j :: 0 <= i < j < |names| ==> names[i] != names[j]
    requires forall i :: 0 <= i < |names| ==> names[i] !in unreachable && names[i] in m
    ensures RemoveAll(m, names, unreachable) == Effect(Ok(()), m - KeySet(names))
    decreases |names|
  {
    if names != [] {
      RemoveAllSucceeds(m - {names[0]}, names[1..], unreachable);
      assert KeySet(names) == {names[0]} + KeySet(names[1..]);
    }
  }

  /** Where a sequence of deletes fails: at the first name that is unreachable or absent, with
      every earlier name already removed. */
  lemma {:induction false} RemoveAllStopsAt(m: map<string, string>, names: seq<string>, unreachable: set<string>, i: nat)
    requires i < |names|
    requires forall a, b :: 0 <= a < b <= i ==> names[a] != names[b]
    requires forall j :: 0 <= j < i ==> names[j] !in unreachable && names[j] in m
    requires names[i] in unreachable || names[i] !in m
    ensures RemoveAll(m, names, unreachable) == Effect(Err(DeleteFailure(names[i])), m - KeySet(names[..i]))
    decreases i
  {
    if i > 0 {
      RemoveAllStopsAt(m - {names[0]}, names[1..], unreachable, i - 1);
      assert KeySet(names[..i]) == {names[0]} + KeySet(names[1..][..i - 1]);
    }
  }

  /** The parameter store service: one map from names to values. */
  class ParameterStore {
    var params: map<string, string>

    constructor (initial: map<string, string>)
      ensures params == initial
    {
      params := initial;
    }

    method StoreParameter(name: string, value: string, reachable: bool) returns (r: Result<()>)
      modifies this
      ensures Effect(r, params) == Put(old(params), name, value, reachable)
    {
      if !reachable {
        r := Err(PutFailure(name));
        return;
      }
      params := params[name := value];
      r := Ok(());
    }

    method RetrieveParameter(name: string, reachable: bool) returns (r: Result<string>)
      ensures r == Get(params, name, reachable)
    {
      if reachable && name in params && params[name] != "" {
        r := Ok(params[name]);
      } else {
        r := Err(RetrieveFailure(name));
      }
    }

    method DeleteParameter(name: string, reachable: bool) returns (r: Result<()>)
      modifies this
      ensures Effect(r, params) == Remove(old(params), name, reachable)
    {
      if !reachable || name !in params {
        r := Err(DeleteFailure(name));
        return;
      }
      params := params - {name};
      r := Ok(());
    }
  }
}
