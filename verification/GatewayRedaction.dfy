/**
 Redaction over interleaved runs: downstream results that the redact list makes indistinct leave the
 whole gateway, every reply and every audit event included, in the same state.
 */
module GatewayRedaction {
  import opened Wrappers
  import opened Mcp
  import opened Lifecycle
  import opened Gateway

  /** The same step, or the same forward answered with results its decision makes indistinct. */
  ghost predicate StepsAlike(w: World, x: Step, y: Step, env: Setting) {
    || x == y
    || (&& x.at == y.at && x.act.Finish? && y.act.Finish? && x.act.id == y.act.id
        && x.act.response.Ok? && y.act.response.Ok? && x.act.response.value.error == y.act.response.value.error
        && x.act.response.value.result.Some? && y.act.response.value.result.Some?
        && (x.act.id in w.flights && w.flights[x.act.id].stage.Admitted? ==>
              Indistinct(env.codec, x.act.response.value.result.value, y.act.response.value.result.value,
                         w.flights[x.act.id].stage.decision.redactFields)))
  }

  /** Step by step alike, each in the world the first run has reached. */
  ghost predicate RunsAlike(start: World, xs: seq<Step>, ys: seq<Step>, env: Setting)
    decreases |xs|
  {
    |xs| == |ys| &&
    (xs != [] ==>
       var n := |xs| - 1;
       && RunsAlike(start, xs[..n], ys[..n], env)
       && (Run(start, xs[..n], env).Some? ==> StepsAlike(Run(start, xs[..n], env).value, xs[n], ys[n], env)))
  }

  lemma FinishAlike(f: Flight, x: Result<Response, string>, y: Result<Response, string>, env: Setting)
    requires f.stage.Admitted? && x.Ok? && y.Ok? && x.value.error == y.value.error
    requires x.value.result.Some? && y.value.result.Some?
    requires Indistinct(env.codec, x.value.result.value, y.value.result.value, f.stage.decision.redactFields)
    ensures Finished(f, x, env.codec) == Finished(f, y, env.codec)
  {
    ReplyNoninterference(env.codec, f.stage.job, f.stage.decision,
                         x.value.result.value, y.value.result.value, x.value.error);
  }

  lemma StepAlike(w: World, x: Step, y: Step, env: Setting)
    requires StepsAlike(w, x, y, env)
    ensures Enabled(w, x, env) <==> Enabled(w, y, env)
    ensures Enabled(w, x, env) ==> Next(w, x, env) == Next(w, y, env)
  {
    if x != y && Enabled(w, x, env) {
      FinishAlike(w.flights[x.act.id], x.act.response, y.act.response, env);
    }
  }

  /**
   Two runs of the gateway, of any number of requests, that differ only in what redaction hides of the
   downstream results end in the same world: no reply, audit event, forward, Redis command or cache
   write of any request tells them apart.
   */
  lemma {:induction false} RunNoninterference(start: World, xs: seq<Step>, ys: seq<Step>, env: Setting)
    requires RunsAlike(start, xs, ys, env)
    ensures Run(start, xs, env) == Run(start, ys, env)
    decreases |xs|
  {
    if xs != [] {
      var n := |xs| - 1;
      RunNoninterference(start, xs[..n], ys[..n], env);
      var before := Run(start, xs[..n], env);
      if before.Some? {
        StepAlike(before.value, xs[n], ys[n], env);
      }
    }
  }
}
