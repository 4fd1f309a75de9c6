/**
 The hash-chained audit log of a controller task (app/core/controller.py, _audit). The hash is
 idealised as injective and never equal to the all-zero value a chain starts from: a digest is
 the record it was taken of.
 */
module AuditChain {
  datatype Action = TaskCreated | PlanReady | TaskApproved | TaskCancelled | ExecutionAuthorized

  datatype Body = Body(sequence: nat, task: string, tenant: string, action: Action, details: string, previous: Digest,
                       recordedAt: int)

  datatype Digest = Zeros | Hash(body: Body)

  datatype Record = Record(body: Body, hash: Digest)

  function HeadOf(chain: seq<Record>): Digest {
    if chain == [] then Zeros else chain[|chain| - 1].hash
  }

  /** Appends the next record. */
  function Append(chain: seq<Record>, task: string, tenant: string, action: Action, details: string,
                  now: int): seq<Record> {
    var body := Body(|chain| + 1, task, tenant, action, details, HeadOf(chain), now);
    chain + [Record(body, Hash(body))]
  }

  /** Sequences 1..n, each record linked to the one before, each hash its record's own, all of one task and tenant. */
  predicate WellFormed(chain: seq<Record>, task: string, tenant: string) {
    forall i | 0 <= i < |chain| ::
      && chain[i].body.sequence == i + 1
      && chain[i].body.previous == HeadOf(chain[..i])
      && chain[i].hash == Hash(chain[i].body)
      && chain[i].body.task == task && chain[i].body.tenant == tenant
  }

  lemma AppendKeeps(chain: seq<Record>, task: string, tenant: string, action: Action, details: string, now: int)
    requires WellFormed(chain, task, tenant)
    ensures WellFormed(Append(chain, task, tenant, action, details, now), task, tenant)
  {
    var chain' := Append(chain, task, tenant, action, details, now);
    forall i | 0 <= i < |chain'|
      ensures chain'[i].body.previous == HeadOf(chain'[..i])
    {
      assert chain'[..i] == if i < |chain| then chain[..i] else chain;
    }
  }

  lemma PrefixIsWellFormed(chain: seq<Record>, task: string, tenant: string, n: nat)
    requires WellFormed(chain, task, tenant) && n <= |chain|
    ensures WellFormed(chain[..n], task, tenant)
  {
    forall i | 0 <= i < n ensures chain[..n][i].body.previous == HeadOf(chain[..n][..i]) {
      assert chain[..n][..i] == chain[..i];
    }
  }

  lemma LastRecord(chain: seq<Record>, task: string, tenant: string)
    requires WellFormed(chain, task, tenant) && chain != []
    ensures var r := chain[|chain| - 1];
            HeadOf(chain) == r.hash == Hash(r.body) && r.body.previous == HeadOf(chain[..|chain| - 1])
  {
  }

  /** The head commits to the whole history: two well-formed chains with one head hash are equal record for record. */
  lemma {:induction false} HeadDeterminesChain(a: seq<Record>, b: seq<Record>, task: string, tenant: string,
                                               task': string, tenant': string)
    requires WellFormed(a, task, tenant) && WellFormed(b, task', tenant') && HeadOf(a) == HeadOf(b)
    ensures a == b
    decreases |a|
  {
    if a != [] && b != [] {
      var n, m := |a| - 1, |b| - 1;
      LastRecord(a, task, tenant);
      LastRecord(b, task', tenant');
      PrefixIsWellFormed(a, task, tenant, n);
      PrefixIsWellFormed(b, task', tenant', m);
      hide WellFormed, HeadOf;
      HeadDeterminesChain(a[..n], b[..m], task, tenant, task', tenant');
      assert a == a[..n] + [a[n]] && b == b[..m] + [b[m]];
    } else {
      if a != [] {
        LastRecord(a, task, tenant);
      }
      if b != [] {
        LastRecord(b, task', tenant');
      }
    }
  }

  /** So no record of a chain can be altered, dropped, reordered or inserted without changing the head. */
  lemma TamperingShows(a: seq<Record>, b: seq<Record>, task: string, tenant: string)
    requires WellFormed(a, task, tenant) && WellFormed(b, task, tenant) && a != b
    ensures HeadOf(a) != HeadOf(b)
  {
    if HeadOf(a) == HeadOf(b) {
      HeadDeterminesChain(a, b, task, tenant, task, tenant);
    }
  }

  function CountOf(chain: seq<Record>, action: Action): nat {
    if chain == [] then 0
    else CountOf(chain[..|chain| - 1], action) + if chain[|chain| - 1].body.action == action then 1 else 0
  }

  lemma CountAppend(chain: seq<Record>, task: string, tenant: string, added: Action, details: string, now: int,
                    action: Action)
    ensures CountOf(Append(chain, task, tenant, added, details, now), action) ==
            CountOf(chain, action) + if added == action then 1 else 0
  {
    var chain' := Append(chain, task, tenant, added, details, now);
    assert chain'[..|chain'| - 1] == chain;
  }
}
