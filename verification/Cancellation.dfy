/** The generation clock: advancing it cancels everything handed out before. */
module Cancellation {
  import opened Text

  class CancellationState {
    var cancelled: bool
    var reason: string

    constructor ()
      ensures !cancelled
    {
      cancelled, reason := false, "";
    }

    method Cancel(why: string) returns (changed: bool)
      modifies this
      ensures cancelled && changed == !old(cancelled)
      ensures reason == if changed then why else old(reason)
    {
      if cancelled { return false; }
      cancelled, reason := true, why;
      return true;
    }
  }

  /** What adapters are given: a generation and a view of whether it has been cancelled. */
  datatype Token = Token(generation: nat, state: CancellationState)

  predicate Blank(s: string) {
    Strip(s) == []
  }

  class CancellationSource {
    var generation: nat
    var state: CancellationState
    var closed: bool
    /** Every state handed out so far, with its generation. */
    ghost var issued: map<CancellationState, nat>

    /** A state that is not the current one is cancelled, and so is the current one after closing. */
    ghost predicate Valid()
      reads this, issued.Keys
    {
      && state in issued && issued[state] == generation
      && (forall s <- issued :: s != state ==> issued[s] < generation && s.cancelled)
      && (closed ==> state.cancelled)
    }

    ghost predicate Issued(t: Token)
      reads this
    {
      t.state in issued && issued[t.state] == t.generation
    }

    constructor (initial: nat)
      ensures Valid() && generation == initial && !closed && !state.cancelled
    {
      generation, closed := initial, false;
      var fresh' := new CancellationState();
      state := fresh';
      issued := map[fresh' := initial];
    }

    /** However old a token is, if it is not cancelled it is of the current generation, and accepted. */
    lemma LiveTokenIsCurrent(t: Token)
      requires Valid() && Issued(t) && !t.state.cancelled
      ensures t.generation == generation && t.state == state && !closed
    {
    }

    method CurrentToken() returns (t: Token)
      requires Valid()
      ensures Issued(t) && t == Token(generation, state)
    {
      t := Token(generation, state);
    }

    /** Cancel the old generation and open the next; refused with a blank reason or once closed. */
    method Advance(why: string) returns (t: Option<Token>)
      requires Valid()
      modifies this, state
      ensures Valid() && closed == old(closed)
      ensures t.Some? <==> !Blank(why) && !old(closed)
      ensures t.Some? ==> t.value == Token(generation, state) && generation == old(generation) + 1 && !state.cancelled
                          && fresh(state) && issued == old(issued)[state := generation] && old(state).cancelled
      ensures t.None? ==> generation == old(generation) && state == old(state) && issued == old(issued)
                          && state.cancelled == old(state.cancelled)
    {
      hide Blank;
      if Blank(why) || closed { return None; }
      var changed := state.Cancel(why);
      generation := generation + 1;
      var next := new CancellationState();
      state := next;
      issued := issued[next := generation];
      return Some(Token(generation, state));
    }

    method CancelCurrent(why: string) returns (changed: Option<bool>)
      requires Valid()
      modifies state
      ensures Valid()
      ensures changed.Some? <==> !Blank(why)
      ensures changed.Some? ==> state.cancelled && changed.value == !old(state.cancelled)
      ensures changed.None? ==> state.cancelled == old(state.cancelled)
    {
      hide Blank;
      if Blank(why) { return None; }
      var c := state.Cancel(why);
      return Some(c);
    }

    method Close(why: string) returns (changed: Option<bool>)
      requires Valid()
      modifies `closed, state
      ensures Valid()
      ensures changed.Some? <==> !Blank(why)
      ensures changed.Some? ==> closed && changed.value == !old(state.cancelled)
      ensures changed.None? ==> closed == old(closed) && state.cancelled == old(state.cancelled)
    {
      hide Blank;
      if Blank(why) { return None; }
      var c := state.Cancel(why);
      closed := true;
      return Some(c);
    }

    method Accepts(g: nat) returns (ok: bool)
      requires Valid()
      ensures ok <==> g == generation && !state.cancelled
    {
      ok := !closed && g == generation && !state.cancelled;
    }
  }
}
