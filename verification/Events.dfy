/** Audit events, their validation, and the routing keys they are published under. */
module Events {
  import opened Wrappers

  const OUTCOME_ALLOWED := "allowed"
  const OUTCOME_DENIED := "denied"
  const OUTCOME_RATE_LIMITED := "rate_limited"
  const OUTCOME_ERROR := "error"

  const ROUTING_KEY_ALLOWED := "audit.allowed"
  const ROUTING_KEY_DENIED := "audit.denied"
  const ROUTING_KEY_RATE_LIMITED := "audit.rate_limited"
  const ROUTING_KEY_ERROR := "audit.error"
  const ROUTING_KEY_ALL := "audit.*"

  /** Params and summary are raw JSON text; a zero time is None. */
  datatype Event = Event(
    id: string,
    userId: string,
    serverId: string,
    toolName: string,
    params: Option<string>,
    outcome: string,
    summary: Option<string>,
    latencyMs: Option<int>,
    occurredAt: Option<int>)

  datatype Problem = MissingId | MissingUser | MissingServer | MissingTool | InvalidOutcome

  predicate Listed(outcome: string) {
    || outcome == OUTCOME_ALLOWED || outcome == OUTCOME_DENIED
    || outcome == OUTCOME_RATE_LIMITED || outcome == OUTCOME_ERROR
  }

  /** The first missing field, or an outcome that is not listed. */
  function Validate(e: Event): (r: Result<(), Problem>)
    ensures r.Ok? <==>
      e.id != "" && e.userId != "" && e.serverId != "" && e.toolName != "" && Listed(e.outcome)
    ensures r == Err(InvalidOutcome) ==> !Listed(e.outcome)
    ensures r == Err(MissingId) ==> e.id == ""
    ensures r == Err(MissingUser) ==> e.userId == ""
    ensures r == Err(MissingServer) ==> e.serverId == ""
    ensures r == Err(MissingTool) ==> e.toolName == ""
  {
    if e.id == "" then Err(MissingId)
    else if e.userId == "" then Err(MissingUser)
    else if e.serverId == "" then Err(MissingServer)
    else if e.toolName == "" then Err(MissingTool)
    else if Listed(e.outcome) then Ok(())
    else Err(InvalidOutcome)
  }

  function RoutingKey(outcome: string): string {
    if outcome == OUTCOME_ALLOWED then ROUTING_KEY_ALLOWED
    else if outcome == OUTCOME_DENIED then ROUTING_KEY_DENIED
    else if outcome == OUTCOME_RATE_LIMITED then ROUTING_KEY_RATE_LIMITED
    else if outcome == OUTCOME_ERROR then ROUTING_KEY_ERROR
    else "audit." + outcome
  }

  /** The listed keys follow the rule of the default case. */
  lemma RoutingKeyUniform(outcome: string)
    ensures RoutingKey(outcome) == "audit" + "." + outcome
  {
  }
}

/**
 Topic exchanges, by the matching rules of section 3.1.3.3 of AMQP 0-9-1: keys and patterns are
 words separated by dots, * stands for one word and # for any number of words.
 */
module Topics {
  import opened Events

  function Words(s: string): (r: seq<string>)
    ensures r != []
  {
    if s == "" then [""]
    else
      var rest := Words(s[1..]);
      if s[0] == '.' then [""] + rest else [[s[0]] + rest[0]] + rest[1..]
  }

  predicate Match(pattern: seq<string>, key: seq<string>)
    decreases |pattern| + |key|
  {
    if pattern == [] then key == []
    else if pattern[0] == "#" then Match(pattern[1..], key) || (key != [] && Match(pattern, key[1..]))
    else key != [] && (pattern[0] == "*" || pattern[0] == key[0]) && Match(pattern[1..], key[1..])
  }

  predicate Matches(pattern: string, key: string) {
    Match(Words(pattern), Words(key))
  }

  datatype Exchange = AuditExchange | DeadLetterExchange

  datatype Queue = Persist | Alerting | DeadLetters

  /** The bindings the writer and the alert consumer declare. */
  function Bindings(x: Exchange): set<(string, Queue)> {
    match x
    case AuditExchange =>
      {(ROUTING_KEY_ALL, Persist), (ROUTING_KEY_DENIED, Alerting), (ROUTING_KEY_RATE_LIMITED, Alerting)}
    case DeadLetterExchange => {("#", DeadLetters)}
  }

  predicate RoutesTo(x: Exchange, key: string, q: Queue) {
    exists b :: b in Bindings(x) && b.1 == q && Matches(b.0, key)
  }

  lemma {:induction false} WordsOfPlain(s: string)
    ensures '.' !in s <==> Words(s) == [s]
  {
    if s != "" {
      WordsOfPlain(s[1..]);
      assert [s[0]] + s[1..] == s;
      if s[0] == '.' {
        assert Words(s)[0] == "";
      } else {
        assert '.' in s <==> '.' in s[1..];
        var rest := Words(s[1..]);
        if Words(s) == [s] {
          assert [s[0]] + rest[0] == Words(s)[0] == s;
          assert ([s[0]] + rest[0])[1..] == rest[0];
          assert |rest| == 1 && rest == [rest[0]];
        }
      }
    }
  }

  lemma {:induction false} WordsOfJoined(word: string, s: string)
    requires '.' !in word
    ensures Words(word + "." + s) == [word] + Words(s)
  {
    var joined := word + "." + s;
    if word == "" {
      assert joined[1..] == s;
    } else {
      assert joined[1..] == word[1..] + "." + s;
      WordsOfJoined(word[1..], s);
      assert [word[0]] + word[1..] == word;
    }
  }

  lemma {:induction false} HashMatchesAll(key: seq<string>)
    ensures Match(["#"], key)
  {
    if key != [] { HashMatchesAll(key[1..]); }
  }

  /** Every dead-lettered message reaches the dead-letter queue, however many words its key has. */
  lemma EveryDeadLetterRouted(key: string)
    ensures RoutesTo(DeadLetterExchange, key, DeadLetters)
  {
    WordsOfPlain("#");
    HashMatchesAll(Words(key));
    assert ("#", DeadLetters) in Bindings(DeadLetterExchange);
  }

  lemma TwoWords(second: string, outcome: string)
    requires '.' !in second && second != "#"
    ensures Matches("audit" + "." + second, "audit" + "." + outcome) <==>
      if second == "*" then '.' !in outcome else outcome == second
  {
    WordsOfJoined("audit", second);
    WordsOfJoined("audit", outcome);
    WordsOfPlain(second);
    WordsOfPlain(outcome);
    var pattern, key := ["audit", second], ["audit"] + Words(outcome);
    assert pattern[1..] == [second] && key[1..] == Words(outcome);
    assert [second][1..] == [];
    assert Match([second], Words(outcome)) <==>
      (second == "*" || second == Words(outcome)[0]) && Words(outcome)[1..] == [];
    assert Words(outcome)[1..] == [] <==> Words(outcome) == [Words(outcome)[0]];
    if Words(outcome) == [Words(outcome)[0]] { SingleWord(outcome); }
  }

  lemma {:induction false} SingleWord(s: string)
    requires |Words(s)| == 1
    ensures Words(s) == [s]
  {
    if s != "" {
      SingleWord(s[1..]);
      assert [s[0]] + s[1..] == s;
    }
  }

  /** An outcome reaches the persist queue exactly when it is a single word, listed or not. */
  lemma PersistBindingExact(outcome: string)
    ensures RoutesTo(AuditExchange, RoutingKey(outcome), Persist) <==> '.' !in outcome
  {
    RoutingKeyUniform(outcome);
    TwoWords("*", outcome);
    assert ROUTING_KEY_ALL == "audit" + "." + "*";
    assert (ROUTING_KEY_ALL, Persist) in Bindings(AuditExchange);
  }

  lemma AlertingBindings(key: string)
    ensures RoutesTo(AuditExchange, key, Alerting)
      <==> Matches(ROUTING_KEY_DENIED, key) || Matches(ROUTING_KEY_RATE_LIMITED, key)
  {
    assert (ROUTING_KEY_DENIED, Alerting) in Bindings(AuditExchange);
    assert (ROUTING_KEY_RATE_LIMITED, Alerting) in Bindings(AuditExchange);
  }

  lemma MatchesListed(listed: string, key: string, outcome: string)
    requires Listed(listed) && key == "audit" + "." + outcome
    ensures Matches(RoutingKey(listed), key) <==> outcome == listed
  {
    assert '.' !in listed && listed != "#" && listed != "*";
    RoutingKeyUniform(listed);
    TwoWords(listed, outcome);
  }

  /** The alerting queue receives exactly the denied and the rate-limited outcomes. */
  lemma AlertingBindingsExact(outcome: string)
    ensures RoutesTo(AuditExchange, RoutingKey(outcome), Alerting)
      <==> outcome == OUTCOME_DENIED || outcome == OUTCOME_RATE_LIMITED
  {
    var key := RoutingKey(outcome);
    RoutingKeyUniform(outcome);
    AlertingBindings(key);
    MatchesListed(OUTCOME_DENIED, key, outcome);
    MatchesListed(OUTCOME_RATE_LIMITED, key, outcome);
  }

  /** Every event that passes validation is persisted, whatever else happens to it. */
  lemma ValidEventRouted(e: Event)
    requires Validate(e).Ok?
    ensures RoutesTo(AuditExchange, RoutingKey(e.outcome), Persist)
  {
    PersistBindingExact(e.outcome);
  }
}
