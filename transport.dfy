/**
 * The register transport (HPMread / HPMwrite) over the register file, with
 * the CHECK_*_ERROR convention: a failed access leaves the state as it was
 * and makes the caller return early. A sequence of writes stops at its first
 * failure. A `Plan` is what one encoder call does to the hardware: auxiliary
 * (filter, off-core, match) writes, then the config-register writes, then
 * the `currentConfig` update.
 */
module Transport {

  import opened Bits
  import opened PerfmonTypes

  datatype Exec = Exec(ok: bool, ctx: Ctx)

  /** HPMwrite */
  function Write(p: Platform, c: Ctx, k: RegKey, v: bv64): (r: Exec)
    ensures r.ok <==> k !in p.faulty
    ensures r.ok ==> r.ctx.log == c.log + [Access(k, v)] && Get(r.ctx.regs, k) == v
    ensures !r.ok ==> r.ctx == c
    ensures r.ctx.config == c.config && r.ctx.socketLock == c.socketLock && r.ctx.tileLock == c.tileLock
  {
    if k in p.faulty then Exec(false, c)
    else Exec(true, c.(regs := c.regs[k := v], log := c.log + [Access(k, v)]))
  }

  /** HPMread: the value in the register file, or a failure. */
  predicate Readable(p: Platform, k: RegKey)
  {
    k !in p.faulty
  }

  /** Perform the writes in order, stopping at the first one that fails. */
  function Writes(p: Platform, c: Ctx, ws: seq<Access>): (r: Exec)
    decreases |ws|
  {
    if ws == [] then Exec(true, c)
    else
      var r := Writes(p, c, ws[..|ws| - 1]);
      if !r.ok then r else Write(p, r.ctx, ws[|ws| - 1].key, ws[|ws| - 1].value)
  }

  lemma WritesSnoc(p: Platform, c: Ctx, ws: seq<Access>, w: Access)
    ensures Writes(p, c, ws + [w]) ==
      (var r := Writes(p, c, ws); if !r.ok then r else Write(p, r.ctx, w.key, w.value))
  {
    assert (ws + [w])[..|ws|] == ws;
  }

  /** Running `a + b` is running `a`, then `b` if `a` succeeded. */
  lemma {:induction false} WritesAppend(p: Platform, c: Ctx, a: seq<Access>, b: seq<Access>)
    ensures Writes(p, c, a + b) ==
      (var r := Writes(p, c, a); if !r.ok then r else Writes(p, r.ctx, b))
    decreases |b|
  {
    if b == [] {
      assert a + b == a;
    } else {
      var b' := b[..|b| - 1];
      assert a + b == (a + b') + [b[|b| - 1]];
      WritesSnoc(p, c, a + b', b[|b| - 1]);
      WritesAppend(p, c, a, b');
      var r := Writes(p, c, a);
      if r.ok {
        assert b == b' + [b[|b| - 1]];
        WritesSnoc(p, r.ctx, b', b[|b| - 1]);
      }
    }
  }

  /** The writes succeed exactly when none of them targets a failing register. */
  lemma {:induction false} WritesOk(p: Platform, c: Ctx, ws: seq<Access>)
    ensures Writes(p, c, ws).ok <==> forall j | 0 <= j < |ws| :: ws[j].key !in p.faulty
    decreases |ws|
  {
    if ws != [] {
      var ws' := ws[..|ws| - 1];
      WritesOk(p, c, ws');
      assert forall j | 0 <= j < |ws'| :: ws'[j] == ws[j];
    }
  }

  /**
   * The write log is append-only: it grows by the prefix of the writes that
   * went through, and by all of them when every write succeeded. Nothing but
   * the register file and the log changes.
   */
  lemma {:induction false} WritesLog(p: Platform, c: Ctx, ws: seq<Access>)
    ensures var r := Writes(p, c, ws);
      && (exists n | 0 <= n <= |ws| :: r.ctx.log == c.log + ws[..n])
      && (r.ok ==> r.ctx.log == c.log + ws)
      && r.ctx.config == c.config && r.ctx.socketLock == c.socketLock && r.ctx.tileLock == c.tileLock
    decreases |ws|
  {
    if ws == [] {
      assert c.log + ws[..0] == c.log;
    } else {
      var ws' := ws[..|ws| - 1];
      var last := ws[|ws| - 1];
      WritesLog(p, c, ws');
      var r' := Writes(p, c, ws');
      var r := Writes(p, c, ws);
      assert r == if !r'.ok then r' else Write(p, r'.ctx, last.key, last.value);
      if !r'.ok || last.key in p.faulty {
        var n :| 0 <= n <= |ws'| && r'.ctx.log == c.log + ws'[..n];
        assert r.ctx == r'.ctx;
        assert ws'[..n] == ws[..n];
      } else {
        assert r.ctx.log == c.log + ws' + [last];
        assert ws' + [last] == ws[..|ws|] == ws;
        assert r.ctx.log == c.log + ws[..|ws|];
      }
    }
  }

  /** Once a prefix of the writes fails, the rest are never attempted. */
  lemma WritesStuck(p: Platform, c: Ctx, ws: seq<Access>, n: nat)
    requires n <= |ws| && !Writes(p, c, ws[..n]).ok
    ensures Writes(p, c, ws) == Writes(p, c, ws[..n])
  {
    assert ws == ws[..n] + ws[n..];
    WritesAppend(p, c, ws[..n], ws[n..]);
  }

  /** A failing prefix decides the whole run. */
  lemma WritesPrefixFails(p: Platform, c: Ctx, a: seq<Access>, ws: seq<Access>)
    requires a <= ws && !Writes(p, c, a).ok
    ensures Writes(p, c, ws) == Writes(p, c, a)
  {
    assert ws[..|a|] == a;
    WritesStuck(p, c, ws, |a|);
  }

  /** One write, and two writes in a row. */
  lemma WritesShort(p: Platform, c: Ctx, a: Access, b: Access)
    ensures Writes(p, c, [a]) == Write(p, c, a.key, a.value)
    ensures Writes(p, c, [a, b]) ==
      (var r := Write(p, c, a.key, a.value); if !r.ok then r else Write(p, r.ctx, b.key, b.value))
  {
    assert [a][..0] == [];
    assert [a, b][..1] == [a];
  }

  /** The first `n + 1` writes are the first `n`, then write `n` if they succeeded. */
  lemma WritesNext(p: Platform, c: Ctx, ws: seq<Access>, n: nat)
    requires n < |ws|
    ensures Writes(p, c, ws[..n + 1]) ==
      (var r := Writes(p, c, ws[..n]); if !r.ok then r else Write(p, r.ctx, ws[n].key, ws[n].value))
  {
    assert ws[..n + 1][..n] == ws[..n];
  }

  /** No writes leave the state unchanged. */
  lemma WritesNone(p: Platform, c: Ctx)
    ensures Writes(p, c, []) == Exec(true, c)
  {
  }

  /** What one encoder does: `aux` writes, then `config` writes, then the cache update. */
  datatype Plan = Plan(status: Status, aux: seq<Access>, config: seq<Access>, cache: Option<bv64>)

  datatype Option<T> = None | Some(value: T)

  /** The plan of an encoder that returns before touching anything. */
  function Skip(status: Status): Plan
  {
    Plan(status, [], [], None)
  }

  datatype Ran = Ran(status: Status, ctx: Ctx)

  /**
   * Run a plan for `currentConfig[cpu][index]`: a failed write ends the
   * encoder (CHECK_*_ERROR) before the cache is touched.
   */
  function RunPlan(p: Platform, c: Ctx, cpu: nat, index: nat, plan: Plan): Ran
  {
    var r := Writes(p, c, plan.aux + plan.config);
    if !r.ok then Ran(AccessError, r.ctx)
    else if plan.cache.Some? then Ran(plan.status, r.ctx.(config := r.ctx.config[(cpu, index) := plan.cache.value]))
    else Ran(plan.status, r.ctx)
  }

  /** A plan that returns early changes nothing but reports its status. */
  lemma RunSkip(p: Platform, c: Ctx, cpu: nat, index: nat, status: Status)
    ensures RunPlan(p, c, cpu, index, Skip(status)) == Ran(status, c)
  {
    assert Skip(status).aux + Skip(status).config == [];
  }

  /**
   * A successful run appends exactly the plan's writes to the log and, when
   * the plan caches a word, leaves it in `currentConfig[cpu][index]`.
   */
  lemma RunPlanEffect(p: Platform, c: Ctx, cpu: nat, index: nat, plan: Plan)
    ensures var r := RunPlan(p, c, cpu, index, plan);
      && (plan.status != AccessError ==>
            (r.status != AccessError <==> forall j | 0 <= j < |plan.aux + plan.config| :: (plan.aux + plan.config)[j].key !in p.faulty))
      && (r.status != AccessError ==> r.ctx.log == c.log + plan.aux + plan.config && r.status == plan.status)
      && (r.status != AccessError && plan.cache.Some? ==> Cached(r.ctx, cpu, index) == plan.cache.value)
      && (plan.cache.None? ==> r.ctx.config == c.config)
      && r.ctx.socketLock == c.socketLock && r.ctx.tileLock == c.tileLock
  {
    WritesOk(p, c, plan.aux + plan.config);
    WritesLog(p, c, plan.aux + plan.config);
  }

  /** Running a plan is running a prefix of its auxiliary writes, then the rest of the plan. */
  lemma RunPlanPrefix(p: Platform, c: Ctx, cpu: nat, index: nat, plan: Plan, a: seq<Access>)
    requires a <= plan.aux
    ensures RunPlan(p, c, cpu, index, plan) ==
      (var r := Writes(p, c, a);
       if !r.ok then Ran(AccessError, r.ctx) else RunPlan(p, r.ctx, cpu, index, plan.(aux := plan.aux[|a|..])))
  {
    var rest := plan.aux[|a|..];
    assert plan.aux == a + rest;
    assert plan.aux + plan.config == a + (rest + plan.config);
    WritesAppend(p, c, a, rest + plan.config);
  }
}
