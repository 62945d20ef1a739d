/**
 The shared Redis as the gateway uses it: strings and sorted sets with expiry times on the server's
 clock, changed by three commands. A history of commands determines the store, and what the store
 holds at one key depends only on the commands addressed to that key.
 */
module Redis {
  import opened Wrappers
  import opened Decisions
  import opened Doubles

  /** A string value is either a user id or the JSON of a policy decision. */
  datatype Value =
    | Text(text: string)
    | PolicyJson(decision: Decision)
    | Stamps(stamps: set<Nanos>)

  datatype Entry = Entry(value: Value, expires: int)

  type Store = map<string, Entry>

  datatype Command =
    | Set(key: string, value: Value, ttl: int, at: int)
    | Del(key: string, at: int)
    | Slide(key: string, stamp: Nanos, cutoff: int, ttl: int, at: int)

  /** The server drops a key once its clock has passed the expiry time. */
  function Peek(s: Store, key: string, at: int): Option<Value> {
    if key in s && at <= s[key].expires then Some(s[key].value) else None
  }

  /** Removing by score compares doubles: every member whose score is at most the cutoff's goes. */
  function Prune(stamps: set<Nanos>, cutoff: int): set<Nanos> {
    set t | t in stamps && Score(t) > Score(cutoff)
  }

  /** The window script fails, changing nothing, on a key that holds a string. */
  predicate WrongType(s: Store, key: string, at: int) {
    var v := Peek(s, key, at);
    v.Some? && !v.value.Stamps?
  }

  function Window(s: Store, key: string, at: int): set<Nanos> {
    match Peek(s, key, at)
    case Some(Stamps(stamps)) => stamps
    case _ => {}
  }

  function Exec(s: Store, c: Command): Store {
    match c
    case Set(key, value, ttl, at) => s[key := Entry(value, at + ttl)]
    case Del(key, _) => s - {key}
    case Slide(key, stamp, cutoff, ttl, at) =>
      if WrongType(s, key, at) then s
      else s[key := Entry(Stamps(Prune(Window(s, key, at), cutoff) + {stamp}), at + ttl)]
  }

  function ExecAll(log: seq<Command>): Store {
    if log == [] then map[] else Exec(ExecAll(log[..|log| - 1]), log[|log| - 1])
  }

  /** The commands of a history that address one key, in order. */
  function On(log: seq<Command>, key: string): (r: seq<Command>)
    ensures |r| <= |log|
    ensures forall c :: c in r ==> c in log && c.key == key
  {
    if log == [] then []
    else
      var last := log[|log| - 1];
      On(log[..|log| - 1], key) + if last.key == key then [last] else []
  }

  lemma ExecSnoc(log: seq<Command>, c: Command)
    ensures ExecAll(log + [c]) == Exec(ExecAll(log), c)
  {
    assert (log + [c])[..|log|] == log;
  }

  lemma OnSnoc(log: seq<Command>, c: Command, key: string)
    ensures On(log + [c], key) == On(log, key) + if c.key == key then [c] else []
  {
    assert (log + [c])[..|log|] == log;
  }

  ghost predicate AgreeAt(s: Store, t: Store, key: string) {
    (key in s <==> key in t) && (key in s ==> s[key] == t[key])
  }

  lemma ExecOnKey(s: Store, t: Store, c: Command, key: string)
    requires AgreeAt(s, t, key)
    ensures AgreeAt(Exec(s, c), if c.key == key then Exec(t, c) else t, key)
  {
  }

  /**
   Whatever other commands are interleaved, the store holds at a key what the commands on that key
   alone would have left there.
   */
  lemma {:induction false} Projection(log: seq<Command>, key: string)
    ensures AgreeAt(ExecAll(log), ExecAll(On(log, key)), key)
  {
    if log != [] {
      var front, c := log[..|log| - 1], log[|log| - 1];
      var there, alone := ExecAll(front), ExecAll(On(front, key));
      assert AgreeAt(there, alone, key) by { Projection(front, key); }
      assert AgreeAt(Exec(there, c), if c.key == key then Exec(alone, c) else alone, key) by {
        ExecOnKey(there, alone, c, key);
      }
      assert ExecAll(log) == Exec(there, c);
      if c.key == key {
        assert On(log, key) == On(front, key) + [c];
        ExecSnoc(On(front, key), c);
      } else {
        assert On(log, key) == On(front, key);
      }
    }
  }

  class Server {
    var store: Store
    ghost var log: seq<Command>

    ghost predicate Valid()
      reads this
    {
      store == ExecAll(log)
    }

    constructor ()
      ensures Valid() && log == []
    {
      store := map[];
      log := [];
    }

    method Get(key: string, at: int, link: Link) returns (reply: Result<Option<Value>, ()>)
      ensures reply == if link.Healthy? && !(Peek(store, key, at).Some? && Peek(store, key, at).value.Stamps?)
                       then Ok(Peek(store, key, at)) else Err(())
    {
      var found := Peek(store, key, at);
      if !link.Healthy? {
        return Err(());
      }
      if found.Some? && found.value.Stamps? {
        return Err(());
      }
      reply := Ok(found);
    }

    method SetKey(key: string, value: Value, ttl: int, at: int, link: Link) returns (ok: bool)
      requires Valid()
      modifies this
      ensures Valid()
      ensures ok == link.Healthy?
      ensures log == if link.Refused? then old(log) else old(log) + [Set(key, value, ttl, at)]
    {
      if !link.Refused? {
        ExecSnoc(log, Set(key, value, ttl, at));
        log := log + [Set(key, value, ttl, at)];
        store := store[key := Entry(value, at + ttl)];
      }
      ok := link.Healthy?;
    }

    method Delete(key: string, at: int, link: Link) returns (ok: bool)
      requires Valid()
      modifies this
      ensures Valid()
      ensures ok == link.Healthy?
      ensures log == if link.Refused? then old(log) else old(log) + [Del(key, at)]
    {
      if !link.Refused? {
        ExecSnoc(log, Del(key, at));
        log := log + [Del(key, at)];
        store := store - {key};
      }
      ok := link.Healthy?;
    }

    /** The sliding-window script: prune, record the call, count, refresh the expiry. */
    method SlidingWindow(key: string, stamp: Nanos, cutoff: int, ttl: int, at: int, link: Link)
      returns (reply: Result<nat, ()>)
      requires Valid()
      modifies this
      ensures Valid()
      ensures log == if link.Refused? then old(log) else old(log) + [Slide(key, stamp, cutoff, ttl, at)]
      ensures reply == if link.Healthy? && !WrongType(old(store), key, at)
                       then Ok(|Prune(Window(old(store), key, at), cutoff) + {stamp}|) else Err(())
    {
      if link.Refused? {
        return Err(());
      }
      ExecSnoc(log, Slide(key, stamp, cutoff, ttl, at));
      log := log + [Slide(key, stamp, cutoff, ttl, at)];
      if WrongType(store, key, at) {
        return Err(());
      }
      var stamps := Window(store, key, at);
      stamps := Prune(stamps, cutoff);
      stamps := stamps + {stamp};
      var count := |stamps|;
      store := store[key := Entry(Stamps(stamps), at + ttl)];
      reply := if link.Healthy? then Ok(count) else Err(());
    }
  }
}
