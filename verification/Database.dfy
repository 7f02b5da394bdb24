/**
 The transaction wrapper of the database layer (server/src/db/index.ts).

 A connection sees its own working copy; everybody else sees what was committed. The function
 run inside a transaction is a pure function from the working copy to the copy it leaves behind
 and to its result: an `Err` result is the function throwing, and the copy that comes with it
 holds whatever statements had already run. Whole transactions are atomic steps. Postgres aborts a
 transaction when one of its statements fails: if the function swallows that error and returns, the
 COMMIT rolls back and reports nothing.
 */
module Database {
  import opened Wrappers

  /**
   What running a function leaves behind: the data as written so far, a value or an error, and
   whether it swallowed the error of a failed statement.
   */
  datatype Outcome<+T, +V, +E> = Outcome(data: T, result: Result<V, E>, swallowed: bool)

  class Connection<T> {
    var committed: T
    var working: T
    var open: bool
    var aborted: bool

    ghost predicate Valid()
      reads this
    {
      !open ==> working == committed
    }

    /** No transaction is open: the state between two requests. */
    ghost predicate Idle()
      reads this
    {
      !open && working == committed
    }

    constructor (initial: T)
      ensures Idle() && committed == initial
    {
      committed, working, open, aborted := initial, initial, false, false;
    }

    method Begin()
      requires Idle()
      modifies this
      ensures Valid() && open && !aborted && working == committed == old(committed)
    {
      open, aborted := true, false;
    }

    method Commit()
      requires open
      modifies this
      ensures Idle() && committed == if old(aborted) then old(committed) else old(working)
    {
      if aborted {
        Rollback();
      } else {
        committed, open := working, false;
      }
    }

    method Rollback()
      requires open
      modifies this
      ensures Idle() && committed == old(committed)
    {
      working, open := committed, false;
    }

    /** One statement: visible to everybody at once unless a transaction is open. */
    method Write(data: T)
      requires Valid()
      modifies this
      ensures Valid() && open == old(open) && aborted == old(aborted) && working == data
      ensures committed == if open then old(committed) else data
    {
      working := data;
      if !open {
        committed := data;
      }
    }

    /**
     Runs `fn` all or nothing. A call made while a transaction is already open runs `fn` inside
     that one, so its writes stay in the working copy even when it fails: only the outer call
     decides; a failed statement swallowed inside aborts that outer one. `commitFails` is the
     database refusing the COMMIT, answered with `refusal`.
     */
    method Transaction<V, E>(fn: T -> Outcome<T, V, E>, commitFails: bool, refusal: E) returns (r: Result<V, E>)
      requires Valid()
      modifies this
      ensures Valid() && open == old(open)
      ensures old(open) ==>
                && r == fn(old(working)).result
                && working == fn(old(working)).data
                && committed == old(committed)
                && (aborted <==> old(aborted) || fn(old(working)).swallowed)
      ensures !old(open) ==>
                && (r.Ok? <==> fn(old(committed)).result.Ok? && !commitFails)
                && (r.Ok? ==> r == fn(old(committed)).result)
                && (r.Ok? ==> committed == if fn(old(committed)).swallowed then old(committed)
                                           else fn(old(committed)).data)
                && (r.Err? ==> committed == old(committed))
                && (fn(old(committed)).result.Err? ==> r == fn(old(committed)).result)
    {
      if open {
        var inner := fn(working);
        Write(inner.data);
        aborted := aborted || inner.swallowed;
        return inner.result;
      }
      Begin();
      var outcome := fn(working);
      Write(outcome.data);
      aborted := outcome.swallowed;
      if outcome.result.Err? {
        Rollback();
        return outcome.result;
      }
      if commitFails {
        Rollback();
        return Err(refusal);
      }
      Commit();
      return outcome.result;
    }
  }
}
