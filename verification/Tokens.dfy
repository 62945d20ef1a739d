/**
 Per-user proxy tokens. Redis maps the hash of a token to its user for the lifetime of the token;
 revocation deletes the key. The hash function is a parameter.
 */
module Tokens {
  import opened Wrappers
  import opened Keys
  import opened Redis

  const RAW_LENGTH := 64

  datatype TokenError = NotFound | Invalid | LookupFailed

  /** What reached Redis, in order. */
  datatype Op = Issue(raw: string, user: string, at: int) | Revoke(raw: string, at: int)

  type Hash = string -> string

  /** The key of each raw token. */
  type TokenKeys = string -> string

  function KeysBy(hash: Hash): TokenKeys {
    raw => TokenKey(hash(raw))
  }

  function CommandOf(keys: TokenKeys, ttl: int, op: Op): Command {
    match op
    case Issue(raw, user, at) => Set(keys(raw), Text(user), ttl, at)
    case Revoke(raw, at) => Del(keys(raw), at)
  }

  function Commands(keys: TokenKeys, ttl: int, ops: seq<Op>): seq<Command> {
    if ops == [] then []
    else Commands(keys, ttl, ops[..|ops| - 1]) + [CommandOf(keys, ttl, ops[|ops| - 1])]
  }

  /** The user a token resolves to. A policy is never stored under a token key. */
  function Resolve(found: Option<Value>): Result<string, TokenError> {
    match found
    case None => Err(NotFound)
    case Some(Text(user)) => Ok(user)
    case Some(_) => Err(LookupFailed)
  }

  function Validated(s: Store, keys: TokenKeys, raw: string, at: int): Result<string, TokenError> {
    if |raw| != RAW_LENGTH then Err(Invalid) else Resolve(Peek(s, keys(raw), at))
  }

  class TokenManager {
    const redis: Server
    const hash: Hash
    const ttl: int

    /** A lifetime of zero stands for the default. */
    constructor (redis: Server, hash: Hash, ttl: int)
      ensures this.redis == redis && this.hash == hash
      ensures this.ttl == if ttl == 0 then 8 * 60 * 60 * SECOND else ttl
    {
      this.redis := redis;
      this.hash := hash;
      this.ttl := if ttl == 0 then TOKEN_TTL else ttl;
    }

    /** random is what the generator yields, None when it fails. */
    method Issue(user: string, random: Option<string>, at: int, link: Link) returns (r: Result<string, ()>)
      requires redis.Valid()
      modifies redis
      ensures redis.Valid()
      ensures random.None? ==> r == Err(()) && redis.log == old(redis.log)
      ensures random.Some? ==> r == if link.Healthy? then Ok(random.value) else Err(())
      ensures random.Some? ==>
        redis.log == if link.Refused? then old(redis.log)
          else old(redis.log) + [CommandOf(KeysBy(hash), ttl, Op.Issue(random.value, user, at))]
    {
      match random
      case None =>
        return Err(());
      case Some(raw) =>
        var ok := redis.SetKey(TokenKey(hash(raw)), Text(user), ttl, at, link);
        r := if ok then Ok(raw) else Err(());
    }

    method Validate(raw: string, at: int, link: Link) returns (r: Result<string, TokenError>)
      ensures |raw| == RAW_LENGTH && !link.Healthy? ==> r == Err(LookupFailed)
      ensures |raw| != RAW_LENGTH || link.Healthy? ==> r == Validated(redis.store, KeysBy(hash), raw, at)
    {
      if |raw| != RAW_LENGTH {
        return Err(Invalid);
      }
      var reply := redis.Get(TokenKey(hash(raw)), at, link);
      match reply
      case Err(_) => r := Err(LookupFailed);
      case Ok(found) => r := Resolve(found);
    }

    method Revoke(raw: string, at: int, link: Link) returns (ok: bool)
      requires redis.Valid()
      modifies redis
      ensures redis.Valid()
      ensures ok == link.Healthy?
      ensures redis.log == if link.Refused? then old(redis.log)
          else old(redis.log) + [CommandOf(KeysBy(hash), ttl, Op.Revoke(raw, at))]
    {
      ok := redis.Delete(TokenKey(hash(raw)), at, link);
    }
  }

  // ---------------------------------------------------------------- refinement of a timed map

  /** The token was issued to the user, is within its lifetime, and was not touched since. */
  ghost predicate Granted(ops: seq<Op>, ttl: int, raw: string, user: string, at: int) {
    exists i :: 0 <= i < |ops| && ops[i] == Issue(raw, user, ops[i].at) && at <= ops[i].at + ttl &&
      Untouched(ops, i, raw)
  }

  ghost predicate Untouched(ops: seq<Op>, i: int, raw: string) {
    forall j :: 0 <= j && i < j < |ops| ==> ops[j].raw != raw
  }

  ghost predicate NoCollision(keys: TokenKeys, ops: seq<Op>, raw: string) {
    forall j :: 0 <= j < |ops| && keys(ops[j].raw) == keys(raw) ==> ops[j].raw == raw
  }

  lemma GrantedSnoc(ops: seq<Op>, ttl: int, raw: string, user: string, at: int)
    requires ops != []
    ensures var front, last := ops[..|ops| - 1], ops[|ops| - 1];
      Granted(ops, ttl, raw, user, at) <==>
        if last.raw == raw then last.Issue? && last.user == user && at <= last.at + ttl
        else Granted(front, ttl, raw, user, at)
  {
    var n := |ops| - 1;
    var front, last := ops[..n], ops[n];
    if Granted(ops, ttl, raw, user, at) {
      var i :| 0 <= i < |ops| && ops[i] == Issue(raw, user, ops[i].at) && at <= ops[i].at + ttl &&
        Untouched(ops, i, raw);
      if last.raw != raw {
        assert front[i] == ops[i] && Untouched(front, i, raw);
      } else {
        assert i == n;
      }
    }
    if last.raw == raw && last.Issue? && last.user == user && at <= last.at + ttl {
      assert ops[n] == Issue(raw, user, ops[n].at) && Untouched(ops, n, raw);
    }
    if last.raw != raw && Granted(front, ttl, raw, user, at) {
      var i :| 0 <= i < |front| && front[i] == Issue(raw, user, front[i].at) && at <= front[i].at + ttl &&
        Untouched(front, i, raw);
      forall j | 0 <= j && i < j < |ops| ensures ops[j].raw != raw {
        assert j < n ==> front[j] == ops[j];
      }
      assert Untouched(ops, i, raw) && ops[i] == front[i];
    }
  }

  lemma {:induction false} CommandsGrant(keys: TokenKeys, ttl: int, ops: seq<Op>, raw: string, user: string, at: int)
    requires NoCollision(keys, ops, raw)
    ensures var found := Peek(ExecAll(Commands(keys, ttl, ops)), keys(raw), at);
      && (found == Some(Text(user)) <==> Granted(ops, ttl, raw, user, at))
      && (found.Some? ==> found.value.Text?)
  {
    if ops != [] {
      var front, last := ops[..|ops| - 1], ops[|ops| - 1];
      CommandsGrant(keys, ttl, front, raw, user, at);
      GrantedSnoc(ops, ttl, raw, user, at);
      var before := ExecAll(Commands(keys, ttl, front));
      ExecSnoc(Commands(keys, ttl, front), CommandOf(keys, ttl, last));
      assert ops[|ops| - 1] == last;
      StepPeek(keys, ttl, before, last, raw, at);
    }
  }

  lemma StepPeek(keys: TokenKeys, ttl: int, s: Store, op: Op, raw: string, at: int)
    requires keys(op.raw) == keys(raw) <==> op.raw == raw
    ensures Peek(Exec(s, CommandOf(keys, ttl, op)), keys(raw), at) ==
      if op.raw != raw then Peek(s, keys(raw), at)
      else if op.Issue? && at <= op.at + ttl then Some(Text(op.user)) else None
  {
  }

  /**
   On any history of the shared Redis in which the token's key is addressed by token operations
   only, Validate resolves a token to a user exactly when that token was issued to that user, has
   neither been issued again nor revoked since, and is within its lifetime.
   */
  lemma ValidatedIffGranted(log: seq<Command>, keys: TokenKeys, ttl: int, ops: seq<Op>,
                            raw: string, user: string, at: int)
    requires On(log, keys(raw)) == On(Commands(keys, ttl, ops), keys(raw))
    requires NoCollision(keys, ops, raw)
    ensures Validated(ExecAll(log), keys, raw, at) == Ok(user)
      <==> |raw| == RAW_LENGTH && Granted(ops, ttl, raw, user, at)
  {
    Projection(log, keys(raw));
    Projection(Commands(keys, ttl, ops), keys(raw));
    CommandsGrant(keys, ttl, ops, raw, user, at);
  }

  /** Nobody holds the token: never issued, revoked since, or past its lifetime. */
  ghost predicate Ungranted(ops: seq<Op>, ttl: int, raw: string, at: int) {
    forall user :: !Granted(ops, ttl, raw, user, at)
  }

  /**
   Under the same premises, a token of the right length that nobody holds is not found, and one of
   another length is invalid; the lookup itself never fails.
   */
  lemma RefusedIffUngranted(log: seq<Command>, keys: TokenKeys, ttl: int, ops: seq<Op>, raw: string, at: int)
    requires On(log, keys(raw)) == On(Commands(keys, ttl, ops), keys(raw))
    requires NoCollision(keys, ops, raw)
    ensures var r := Validated(ExecAll(log), keys, raw, at);
      && (r == Err(Invalid) <==> |raw| != RAW_LENGTH)
      && (r == Err(NotFound) <==> |raw| == RAW_LENGTH && Ungranted(ops, ttl, raw, at))
      && r != Err(LookupFailed)
  {
    Projection(log, keys(raw));
    Projection(Commands(keys, ttl, ops), keys(raw));
    var found := Peek(ExecAll(log), keys(raw), at);
    forall user
      ensures found == Some(Text(user)) <==> Granted(ops, ttl, raw, user, at)
      ensures found.Some? ==> found.value.Text?
    {
      CommandsGrant(keys, ttl, ops, raw, user, at);
    }
    CommandsGrant(keys, ttl, ops, raw, "", at);
    if found.Some? {
      assert Granted(ops, ttl, raw, found.value.text, at);
    }
  }

  /** Revoking a token ends it at once, and issuing makes it valid for its whole lifetime. */
  lemma RevokeAndIssue(ops: seq<Op>, ttl: int, raw: string, user: string, at: int, t: int)
    ensures !Granted(ops + [Revoke(raw, at)], ttl, raw, user, t)
    ensures Granted(ops + [Issue(raw, user, at)], ttl, raw, user, t) <==> t <= at + ttl
  {
    GrantedSnoc(ops + [Revoke(raw, at)], ttl, raw, user, t);
    GrantedSnoc(ops + [Issue(raw, user, at)], ttl, raw, user, t);
  }

  /** For the keys the manager uses, two tokens collide exactly when their hashes do. */
  lemma KeysCollideWithHashes(hash: Hash, a: string, b: string)
    ensures KeysBy(hash)(a) == KeysBy(hash)(b) <==> hash(a) == hash(b)
  {
    assert TokenKey(hash(a))[6..] == hash(a) && TokenKey(hash(b))[6..] == hash(b);
  }
}
