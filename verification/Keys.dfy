/** Every Redis key pattern and time constant of the gateway. Times are nanoseconds. */
module Keys {
  import opened Wrappers
  import opened Uuids

  const SECOND := 1_000_000_000
  const POLICY_TTL := 60 * SECOND
  const TOKEN_TTL := 8 * 60 * 60 * SECOND
  const RATE_LIMIT_WINDOW := 60 * SECOND

  function PolicyKey(role: string, server: string, tool: string): string {
    "policy:" + role + ":" + server + ":" + tool
  }

  function RateLimitKey(user: string, server: string): string {
    "ratelimit:" + user + ":" + server
  }

  function TokenKey(tokenHash: string): string {
    "token:" + tokenHash
  }

  /** No key belongs to two families, so a command of one never addresses a key of another. */
  lemma FamiliesDisjoint(role: string, server: string, tool: string, user: string, target: string, tokenHash: string)
    ensures PolicyKey(role, server, tool) != RateLimitKey(user, target)
    ensures PolicyKey(role, server, tool) != TokenKey(tokenHash)
    ensures RateLimitKey(user, target) != TokenKey(tokenHash)
  {
    assert PolicyKey(role, server, tool)[0] == 'p';
    assert RateLimitKey(user, target)[0] == 'r';
    assert TokenKey(tokenHash)[0] == 't';
  }

  lemma SplitAt(a: string, b: string, x: string, y: string)
    requires a + b == x + y
    requires |a| == |x|
    ensures a == x && b == y
  {
    assert (a + b)[..|a|] == a && (x + y)[..|x|] == x;
    assert (a + b)[|a|..] == b && (x + y)[|x|..] == y;
  }

  /** Tool names may hold colons: the two printed UUIDs before them have a fixed width. */
  lemma PolicyKeyInjective(role: Uuid, server: Uuid, tool: string, role': Uuid, server': Uuid, tool': string)
    requires PolicyKey(Print(role), Print(server), tool) == PolicyKey(Print(role'), Print(server'), tool')
    ensures role == role' && server == server' && tool == tool'
  {
    PolicyKeyParts(Print(role), Print(server), tool, Print(role'), Print(server'), tool');
    PrintInjective(role, role');
    PrintInjective(server, server');
  }

  lemma PolicyKeyParts(role: string, server: string, tool: string, role': string, server': string, tool': string)
    requires |role| == |role'| && |server| == |server'|
    requires PolicyKey(role, server, tool) == PolicyKey(role', server', tool')
    ensures role == role' && server == server' && tool == tool'
  {
    var third, third' := "policy:" + role + ":" + server + ":", "policy:" + role' + ":" + server' + ":";
    SplitAt(third, tool, third', tool');
    var second, second' := "policy:" + role + ":" + server, "policy:" + role' + ":" + server';
    SplitAt(second, ":", second', ":");
    var first, first' := "policy:" + role + ":", "policy:" + role' + ":";
    SplitAt(first, server, first', server');
    SplitAt("policy:" + role, ":", "policy:" + role', ":");
    SplitAt("policy:", role, "policy:", role');
  }

  /** The key separates any two user texts, and any two printed servers. */
  lemma RateLimitKeyInjective(user: string, server: Uuid, user': string, server': Uuid)
    requires RateLimitKey(user, Print(server)) == RateLimitKey(user', Print(server'))
    ensures user == user' && server == server'
  {
    var key, key' := RateLimitKey(user, Print(server)), RateLimitKey(user', Print(server'));
    var head, head' := "ratelimit:" + user + ":", "ratelimit:" + user' + ":";
    assert key == head + Print(server) && key' == head' + Print(server');
    SplitAt(head, Print(server), head', Print(server'));
    PrintInjective(server, server');
    assert head[10..|head| - 1] == user && head'[10..|head'| - 1] == user';
  }

  /**
   The user text comes from the token and is not normalised before it becomes part of the key, so
   one user has a separate window for each accepted spelling of the same UUID.
   */
  lemma SpellingsGetSeparateWindows(user: Uuid, server: Uuid)
    ensures Scan(Print(user)) == Scan(PrintPlain(user)) == Some(user)
    ensures RateLimitKey(Print(user), Print(server)) != RateLimitKey(PrintPlain(user), Print(server))
  {
    ScanPrint(user);
    if RateLimitKey(Print(user), Print(server)) == RateLimitKey(PrintPlain(user), Print(server)) {
      RateLimitKeyInjective(Print(user), server, PrintPlain(user), server);
    }
  }
}
