/**
 * navigaid/context.go: the authentication result carried by a request context.
 * A context is an immutable chain of layers; SetAuth adds a layer holding the
 * `ai` record (auth info plus the error recorded when authentication failed),
 * and GetAuth reads the nearest such layer.
 */
module AuthContext {
  import opened Base
  import opened ConnectErrors
  import opened Claims

  /** AuthInfo: the raw bearer token and its validated claims. */
  datatype AuthInfo = AuthInfo(accessToken: string, claims: Claims)

  /** The `ai` record stored under the auth key. */
  datatype Entry = Entry(ac: AuthInfo, err: Option<Error>)

  /**
   * context.Context restricted to what the model needs: the empty background,
   * a layer holding an auth entry, or a layer holding a value under another key.
   */
  datatype Context =
    | Background
    | AuthLayer(parent: Context, entry: Entry)
    | ValueLayer(parent: Context, key: string)

  const NoAuthMessage := "no authentication information in context"

  /** ctx.Value(authInfoKey): the entry of the nearest auth layer, if any. */
  function Lookup(ctx: Context): Option<Entry> {
    match ctx
    case Background => None
    case AuthLayer(_, e) => Some(e)
    case ValueLayer(p, _) => Lookup(p)
  }

  /** SetAuth: a new context whose auth entry is (auth, err); `ctx` itself is a value and stays as it was. */
  function SetAuth(ctx: Context, auth: AuthInfo, err: Option<Error>): (r: Context)
    ensures Lookup(r) == Some(Entry(auth, err))
    ensures r.parent == ctx
  {
    AuthLayer(ctx, Entry(auth, err))
  }

  /** context.WithValue under a key other than the auth key (tracing spans, start times, ...). */
  function WithValue(ctx: Context, key: string): (r: Context)
    ensures Lookup(r) == Lookup(ctx)
  {
    ValueLayer(ctx, key)
  }

  /**
   * GetAuth: fails with "no authentication information in context" when no
   * entry is present, fails with exactly the recorded error when there is one,
   * and otherwise yields the stored auth info.
   */
  function GetAuth(ctx: Context): (r: Result<AuthInfo, Error>)
    ensures Lookup(ctx).None? ==> r == Failure(Plain(NoAuthMessage))
    ensures Lookup(ctx).Some? && Lookup(ctx).value.err.Some? ==> r == Failure(Lookup(ctx).value.err.value)
    ensures Lookup(ctx).Some? && Lookup(ctx).value.err.None? ==> r == Success(Lookup(ctx).value.ac)
  {
    match Lookup(ctx)
    case None => Failure(Plain(NoAuthMessage))
    case Some(e) => if e.err.Some? then Failure(e.err.value) else Success(e.ac)
  }

  /** One step a request goes through on its way down: SetAuth, or WithValue under another key. */
  datatype Layering = Set(auth: AuthInfo, err: Option<Error>) | Value(key: string)

  function Apply(ctx: Context, steps: seq<Layering>): Context
    decreases |steps|
  {
    if steps == [] then ctx
    else
      var next := match steps[0] case Set(a, e) => SetAuth(ctx, a, e) case Value(k) => WithValue(ctx, k);
      Apply(next, steps[1..])
  }

  /** Index of the last SetAuth among `steps`, or -1 when there is none. */
  function LastSet(steps: seq<Layering>): (i: int)
    ensures -1 <= i < |steps|
    ensures i >= 0 ==> steps[i].Set?
    ensures forall j :: i < j < |steps| ==> steps[j].Value?
    decreases |steps|
  {
    if steps == [] then -1
    else if steps[|steps| - 1].Set? then |steps| - 1
    else LastSet(steps[..|steps| - 1])
  }

  /**
   * The last SetAuth wins: after any sequence of SetAuth and WithValue steps,
   * GetAuth depends only on the outermost SetAuth, and sees the original
   * context's result when there is none.
   */
  lemma {:induction false} LastSetAuthWins(ctx: Context, steps: seq<Layering>)
    ensures var i := LastSet(steps);
      GetAuth(Apply(ctx, steps)) ==
        if i < 0 then GetAuth(ctx)
        else if steps[i].err.Some? then Failure(steps[i].err.value)
        else Success(steps[i].auth)
    decreases |steps|
  {
    if steps != [] {
      var last := |steps| - 1;
      ApplySnoc(ctx, steps[..last], steps[last]);
      assert steps[..last] + [steps[last]] == steps;
      if steps[last].Value? {
        LastSetAuthWins(ctx, steps[..last]);
        assert LastSet(steps) == LastSet(steps[..last]);
        var i := LastSet(steps);
        if i >= 0 {
          assert steps[..last][i] == steps[i];
        }
        assert GetAuth(Apply(ctx, steps)) == GetAuth(Apply(ctx, steps[..last]));
      } else {
        assert LastSet(steps) == last;
      }
    }
  }

  lemma {:induction false} ApplySnoc(ctx: Context, steps: seq<Layering>, s: Layering)
    ensures Apply(ctx, steps + [s]) ==
      match s case Set(a, e) => SetAuth(Apply(ctx, steps), a, e) case Value(k) => WithValue(Apply(ctx, steps), k)
    decreases |steps|
  {
    if steps != [] {
      var next := match steps[0] case Set(a, e) => SetAuth(ctx, a, e) case Value(k) => WithValue(ctx, k);
      assert (steps + [s])[1..] == steps[1..] + [s];
      ApplySnoc(next, steps[1..], s);
    }
  }

  /** SetAuth with no error: GetAuth yields exactly the stored auth info. */
  lemma GetSetNoError(ctx: Context, a: AuthInfo)
    ensures GetAuth(SetAuth(ctx, a, None)) == Success(a)
  {
  }

  /** SetAuth with an error: GetAuth yields exactly that error and never the auth info. */
  lemma GetSetError(ctx: Context, a: AuthInfo, e: Error)
    ensures GetAuth(SetAuth(ctx, a, Some(e))) == Failure(e)
  {
  }
}
