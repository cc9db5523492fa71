/** The Agent's own policy on remote Jobs: a set of refused Task kinds, its sorted snapshot, and the
    document it is saved as. */
module JobPolicy {
  import opened Basics
  import opened Ordering
  import opened Definitions

  datatype RemoteJobPolicy = RemoteJobPolicy(revision: nat, denyAll: bool, denied: set<Text>)

  datatype PolicySnapshot = PolicySnapshot(revision: nat, denyAll: bool, denied: seq<Text>)

  datatype PolicyChange = AddTask(kind: Text) | RemoveTask(kind: Text) | DenyAll | AllowAll

  predicate DeniesKind(p: RemoteJobPolicy, kind: Text) {
    p.denyAll || kind in p.denied
  }

  /** A definition without a Task kind is left to the compiler. */
  predicate DeniesDefinition(p: RemoteJobPolicy, d: JobDefinition) {
    p.denyAll || (KindOf(d).Some? && KindOf(d).value in p.denied)
  }

  /** The policy after a change, before its revision moves. */
  function Changed(p: RemoteJobPolicy, change: PolicyChange): RemoteJobPolicy {
    match change
    case AddTask(kind) => p.(denied := p.denied + {kind})
    case RemoveTask(kind) => p.(denied := p.denied - {kind})
    case DenyAll => p.(denyAll := true)
    case AllowAll => p.(denyAll := false)
  }

  /** A change that changes nothing is not saved; a real one is saved before it takes effect, so a
      failed save or an exhausted revision leaves the policy alone. */
  function ApplyChange(p: RemoteJobPolicy, change: PolicyChange, saved: bool): Result<RemoteJobPolicy, ()> {
    var candidate := Changed(p, change);
    if candidate == p then Ok(p)
    else if p.revision >= U64_MAX || !saved then Err(())
    else Ok(candidate.(revision := p.revision + 1))
  }

  /** What a change means for what is refused. A change that goes through with a new policy has a new revision, and
      one that fails would have changed something but could not be saved or numbered. */
  lemma ChangeMeans(p: RemoteJobPolicy, change: PolicyChange, saved: bool)
    ensures match ApplyChange(p, change, saved) {
              case Err(_) => (!saved || p.revision >= U64_MAX) && Changed(p, change) != p
              case Ok(q) =>
                && q.revision == p.revision + (if q.denied == p.denied && q.denyAll == p.denyAll then 0 else 1)
                && match change {
                     case AddTask(k) =>
                       && k in q.denied && q.denyAll == p.denyAll
                       && forall other :: other != k ==> (other in q.denied <==> other in p.denied)
                     case RemoveTask(k) =>
                       && k !in q.denied && q.denyAll == p.denyAll
                       && forall other :: other != k ==> (other in q.denied <==> other in p.denied)
                     case DenyAll => q.denyAll && q.denied == p.denied
                     case AllowAll => !q.denyAll && q.denied == p.denied
                   }
            }
  {
  }

  // ----- the sorted snapshot -----

  predicate Ascending(xs: seq<Text>) {
    forall i, j :: 0 <= i < j < |xs| ==> Less(xs[i], xs[j])
  }

  /** The snapshot lists exactly the refused kinds, in order. */
  ghost predicate IsSnapshot(p: RemoteJobPolicy, s: PolicySnapshot) {
    s.revision == p.revision && s.denyAll == p.denyAll && Ascending(s.denied) && Elements(s.denied) == p.denied
  }

  ghost predicate Smallest(m: Text, s: set<Text>) {
    m in s && forall x :: x in s && x != m ==> Less(m, x)
  }

  lemma SmallestOfMore(m: Text, s: set<Text>, y: Text)
    requires Smallest(m, s) && y !in s
    ensures Smallest(if Less(y, m) then y else m, s + {y})
  {
    LessTotal(m, y);
    if Less(y, m) {
      forall x | x in s && x != m ensures Less(y, x) {
        LessTransitive(y, m, x);
      }
    }
  }

  lemma SmallestExists(s: set<Text>)
    requires s != {}
    ensures exists m :: Smallest(m, s)
  {
    var y :| y in s;
    if s == {y} {
      assert Smallest(y, s);
    } else {
      SmallestExists(s - {y});
      var m :| Smallest(m, s - {y});
      SmallestOfMore(m, s - {y}, y);
      assert s - {y} + {y} == s;
    }
  }

  /** Walks the ordered set. */
  method Snapshot(p: RemoteJobPolicy) returns (s: PolicySnapshot)
    ensures IsSnapshot(p, s)
  {
    var rest, listed := p.denied, [];
    while rest != {}
      invariant Ascending(listed) && Elements(listed) == p.denied - rest && rest <= p.denied
      invariant forall x, y :: x in listed && y in rest ==> Less(x, y)
    {
      SmallestExists(rest);
      var m :| m in rest && forall x :: x in rest && x != m ==> Less(m, x);
      var longer := listed + [m];
      assert Elements(longer) == Elements(listed) + {m};
      rest, listed := rest - {m}, longer;
    }
    s := PolicySnapshot(p.revision, p.denyAll, listed);
  }

  /** A binary search over the sorted kinds; it must agree with the set the checks use. */
  method Denies(s: PolicySnapshot, kind: Text, ghost p: RemoteJobPolicy) returns (denied: bool)
    requires IsSnapshot(p, s)
    ensures denied <==> DeniesKind(p, kind)
  {
    if s.denyAll { return true; }
    assert kind in p.denied <==> kind in s.denied by {
      assert kind in Elements(s.denied) <==> kind in s.denied;
    }
    var low, high := 0, |s.denied|;
    while low < high
      invariant 0 <= low <= high <= |s.denied|
      invariant forall i :: 0 <= i < low ==> s.denied[i] != kind
      invariant forall i :: high <= i < |s.denied| ==> s.denied[i] != kind
    {
      var middle := (low + high) / 2;
      if s.denied[middle] == kind {
        return true;
      } else if Less(s.denied[middle], kind) {
        forall i | 0 <= i <= middle ensures s.denied[i] != kind {
          if i < middle && s.denied[i] == kind { LessAsymmetric(s.denied[i], s.denied[middle]); }
        }
        low := middle + 1;
      } else {
        LessTotal(s.denied[middle], kind);
        assert forall i :: middle < i < high ==> Less(s.denied[middle], s.denied[i]);
        high := middle;
      }
    }
    return false;
  }

  // ----- loading what was saved -----

  /** The length in bytes of the white space character the text starts with; 0 if it starts with none. These
      are the characters of Unicode's White_Space property, as they appear in UTF-8. */
  function BlankWidth(t: Text): (n: nat)
    ensures n <= |t|
  {
    if t == [] then 0
    else if t[0] == 0x20 || 0x09 <= t[0] <= 0x0D then 1
    else if |t| >= 2 && t[0] == 0xC2 && (t[1] == 0x85 || t[1] == 0xA0) then 2
    else if |t| >= 3 && t[0] == 0xE1 && t[1] == 0x9A && t[2] == 0x80 then 3
    else if |t| >= 3 && t[0] == 0xE2 && t[1] == 0x80
        && (0x80 <= t[2] <= 0x8A || t[2] == 0xA8 || t[2] == 0xA9 || t[2] == 0xAF) then 3
    else if |t| >= 3 && t[0] == 0xE2 && t[1] == 0x81 && t[2] == 0x9F then 3
    else if |t| >= 3 && t[0] == 0xE3 && t[1] == 0x80 && t[2] == 0x80 then 3
    else 0
  }

  /** Nothing but white space. */
  predicate Blank(kind: Text) {
    kind == [] || (BlankWidth(kind) > 0 && Blank(kind[BlankWidth(kind)..]))
  }

  /** Loading refuses repeated kinds and blank ones. */
  function FromSnapshot(s: PolicySnapshot): Result<RemoteJobPolicy, ()> {
    if |Elements(s.denied)| != |s.denied| then Err(())
    else if exists i :: 0 <= i < |s.denied| && Blank(s.denied[i]) then Err(())
    else Ok(RemoteJobPolicy(s.revision, s.denyAll, Elements(s.denied)))
  }

  /** A saved policy can be loaded again, as itself, exactly when it refuses no blank kind. */
  lemma SavedPolicyLoads(p: RemoteJobPolicy, s: PolicySnapshot)
    requires IsSnapshot(p, s)
    ensures FromSnapshot(s) == Ok(p) <==> forall kind :: kind in p.denied ==> !Blank(kind)
    ensures FromSnapshot(s).Ok? ==> FromSnapshot(s) == Ok(p)
  {
    assert Distinct(s.denied) by {
      forall i, j | 0 <= i < j < |s.denied| ensures s.denied[i] != s.denied[j] {
        LessAsymmetric(s.denied[i], s.denied[j]);
      }
    }
    DistinctSize(s.denied);
    if FromSnapshot(s).Ok? {
      forall kind | kind in p.denied ensures !Blank(kind) {
        assert kind in s.denied;
      }
    } else {
      var i :| 0 <= i < |s.denied| && Blank(s.denied[i]);
      assert s.denied[i] in p.denied;
    }
  }

  /** From a policy that loads, every change that is saved gives one that loads, with exactly one exception:
      adding a blank kind is accepted and saved, and the Agent then cannot load its own policy file. */
  lemma BlankKindLocksOut(p: RemoteJobPolicy, change: PolicyChange, s: PolicySnapshot)
    requires p.revision < U64_MAX && forall kind :: kind in p.denied ==> !Blank(kind)
    requires ApplyChange(p, change, true).Ok? ==> IsSnapshot(ApplyChange(p, change, true).value, s)
    ensures ApplyChange(p, change, true).Ok?
    ensures FromSnapshot(s).Ok? <==> !(change.AddTask? && Blank(change.kind))
  {
    var changed := ApplyChange(p, change, true).value;
    SavedPolicyLoads(changed, s);
    if change.AddTask? {
      assert change.kind in changed.denied;
    }
  }
}
