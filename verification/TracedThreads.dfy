// The tracer's fixed array of traced threads.

module TracedThreads {
  const MAX_TRACED_THREADS: nat := 1024

  function Members(tids: seq<int>): (r: set<int>) {
    set t | t in tids
  }

  predicate Distinct(tids: seq<int>) {
    forall i, j :: 0 <= i < j < |tids| ==> tids[i] != tids[j]
  }

  class ThreadArray {
    var tids: array<int>
    var count: nat

    ghost predicate Valid()
      reads this, tids
    {
      count <= tids.Length == MAX_TRACED_THREADS && Distinct(tids[..count])
    }

    constructor ()
      ensures Valid() && fresh(tids) && count == 0
    {
      tids := new int[MAX_TRACED_THREADS](_ => 0);
      count := 0;
    }

    method Position(tid: int) returns (index: int)
      requires Valid()
      ensures -1 <= index < count
      ensures index == -1 <==> tid !in tids[..count]
      ensures index >= 0 ==> tids[index] == tid
    {
      index := 0;
      while index < count
        invariant 0 <= index <= count
        invariant tid !in tids[..index]
      {
        if tids[index] == tid {
          return;
        }
        index := index + 1;
      }
      index := -1;
    }

    /** True exactly when the thread is traced afterwards; a full array changes nothing. */
    method Add(tid: int) returns (ok: bool)
      requires Valid()
      modifies this`count, tids
      ensures Valid() && tids == old(tids)
      ensures ok <==> tid in old(tids[..count]) || old(count) < MAX_TRACED_THREADS
      ensures Members(tids[..count]) == if ok then Members(old(tids[..count])) + {tid} else Members(old(tids[..count]))
    {
      var index := Position(tid);
      if index >= 0 {
        return true;
      }
      if count >= MAX_TRACED_THREADS {
        return false;
      }
      tids[count] := tid;
      count := count + 1;
      assert tids[..count] == old(tids[..count]) + [tid];
      return true;
    }

    /** The last thread takes the place of the removed one, whose old place is cleared. */
    method Remove(tid: int)
      requires Valid()
      modifies this`count, tids
      ensures Valid() && tids == old(tids)
      ensures Members(tids[..count]) == Members(old(tids[..count])) - {tid}
      ensures count == old(count) - if tid in old(tids[..count]) then 1 else 0
      ensures count < old(count) ==> tids[count] == 0
    {
      var index := Position(tid);
      if index < 0 {
        return;
      }
      ghost var before := tids[..count];
      count := count - 1;
      tids[index] := tids[count];
      tids[count] := 0;
      assert index == count || tids[..count] == before[..count][index := before[count]];
      forall t ensures t in tids[..count] <==> t in before && t != tid {
        if t in before && t != tid {
          var i :| 0 <= i < |before| && before[i] == t;
          assert tids[if i == |before| - 1 then index else i] == t;
        }
      }
    }
  }
}
