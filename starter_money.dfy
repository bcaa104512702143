/**
 * Starter Money: a player who connects for the first time gets, for every
 * configured permission they hold, that permission's amount from each
 * enabled and loaded currency plugin (Economics, Server Rewards, Cash
 * System, in that order). The ledger `data.Players` records the player
 * once per successful payment and is only consulted when the player
 * connects, so once any payment succeeded the player never gets money
 * again (until a wipe clears the ledger).
 *
 * The currency plugins are outside the model: each payment is an entry in
 * a call log, and the set of calls that report success is an input. The
 * amounts are floating-point values of the configuration; a call records
 * the permission whose amount it pays, which stands for that amount.
 *
 * Two steps can throw, and the exception ends the whole connect with the
 * payments made so far kept: the Server Rewards step converts the amount
 * with `Convert.ToInt32`, and the Cash System step reads the player id
 * with `ulong.Parse`. Whether that parse succeeds is an input.
 */
module StarterMoney {
  import opened Lists

  /** The currency plugins, in the order they are paid from. */
  datatype Provider = Economics | ServerRewards | CashSystem

  /** The configuration values the hooks read. `permissions` maps each permission to its amount. */
  datatype Config = Config(
    clearData: bool,                  // "Clear Data On New Save (Rust)"
    economics: bool,                  // "Use Economics"
    serverRewards: bool,              // "Use Server Rewards"
    cashSystem: bool,                 // "Use Cash System"
    cashSystemCurrency: string,       // "Cash System Currency"
    permissions: map<string, real>)   // "Permissions"

  /** The configuration a fresh install writes. */
  const DefaultConfig := Config(false, true, false, false, "$",
                                map["startermoney.default" := 10.0, "startermoney.vip" := 20.0, "startermoney.god" := 30.0])

  /** Which of the currency plugins are loaded. */
  datatype Loaded = Loaded(economics: bool, serverRewards: bool, cashSystem: bool)

  /** One payment asked of a currency plugin: `Deposit`, `AddPoints` or `AddTransaction`. */
  datatype Call = Call(provider: Provider, player: string, perm: string)

  /** A provider is paid from: enabled in the configuration and loaded. */
  predicate Pays(config: Config, loaded: Loaded, p: Provider) {
    match p
    case Economics => config.economics && loaded.economics
    case ServerRewards => config.serverRewards && loaded.serverRewards
    case CashSystem => config.cashSystem && loaded.cashSystem
  }

  /** The call one provider gets for one held permission: none when it does not pay. */
  function ProviderCall(config: Config, loaded: Loaded, id: string, perm: string, p: Provider): seq<Call> {
    if Pays(config, loaded, p) then [Call(p, id, perm)] else []
  }

  /** The calls one held permission causes, in provider order. */
  function PermCalls(config: Config, loaded: Loaded, id: string, perm: string): seq<Call> {
    ProviderCall(config, loaded, id, perm, Economics)
      + ProviderCall(config, loaded, id, perm, ServerRewards)
      + ProviderCall(config, loaded, id, perm, CashSystem)
  }

  /** The calls of one connect: those of each permission in enumeration order that the player holds. */
  function ConnectCalls(config: Config, loaded: Loaded, id: string, held: set<string>, order: seq<string>): seq<Call>
    decreases |order|
  {
    if order == [] then []
    else
      var perm := order[|order| - 1];
      ConnectCalls(config, loaded, id, held, order[..|order| - 1])
        + (if perm in held then PermCalls(config, loaded, id, perm) else [])
  }

  /** `Convert.ToInt32` of an amount: it rounds to the nearest `int` and throws outside that range. */
  predicate FitsInt32(v: real) {
    -2147483648.5 <= v < 2147483647.5
  }

  /** The Server Rewards step of a permission throws: it pays, and the amount does not fit an `int`. */
  predicate RewardsThrow(config: Config, loaded: Loaded, perm: string) {
    Pays(config, loaded, ServerRewards) && perm in config.permissions && !FitsInt32(config.permissions[perm])
  }

  /** The Cash System step throws: it pays, and `ulong.Parse` rejects the player id. */
  predicate CashThrows(config: Config, loaded: Loaded, idParses: bool) {
    Pays(config, loaded, CashSystem) && !idParses
  }

  /** The calls made, and whether an exception ended them. */
  datatype Run = Run(calls: seq<Call>, threw: bool)

  /**
   * The calls one held permission actually makes: Economics, then Server
   * Rewards unless its conversion throws, then Cash System unless its
   * parse throws.
   */
  function PermRun(config: Config, loaded: Loaded, id: string, idParses: bool, perm: string): (r: Run)
    ensures r.threw <==> RewardsThrow(config, loaded, perm) || CashThrows(config, loaded, idParses)
    ensures r.calls <= PermCalls(config, loaded, id, perm)
    ensures !r.threw ==> r.calls == PermCalls(config, loaded, id, perm)
  {
    var e := ProviderCall(config, loaded, id, perm, Economics);
    var s := e + ProviderCall(config, loaded, id, perm, ServerRewards);
    assert e <= s && s <= PermCalls(config, loaded, id, perm);
    if RewardsThrow(config, loaded, perm) then Run(e, true)
    else if CashThrows(config, loaded, idParses) then Run(s, true)
    else Run(PermCalls(config, loaded, id, perm), false)
  }

  /** The calls a connect actually makes: permission by permission, until one throws. */
  function ConnectRun(config: Config, loaded: Loaded, id: string, idParses: bool, held: set<string>,
                      order: seq<string>): (r: Run)
    ensures r.calls <= ConnectCalls(config, loaded, id, held, order)
    ensures !r.threw ==> r.calls == ConnectCalls(config, loaded, id, held, order)
    decreases |order|
  {
    if order == [] then Run([], false)
    else
      var init := order[..|order| - 1];
      var perm := order[|order| - 1];
      var prev := ConnectRun(config, loaded, id, idParses, held, init);
      var rest := if perm in held then PermCalls(config, loaded, id, perm) else [];
      PrefixExtended(prev.calls, ConnectCalls(config, loaded, id, held, init), rest);
      if prev.threw || perm !in held then prev
      else
        var p := PermRun(config, loaded, id, idParses, perm);
        PrefixJoined(prev.calls, p.calls, rest);
        Run(prev.calls + p.calls, p.threw)
  }

  /** A prefix of a sequence is a prefix of any extension of it. */
  lemma PrefixExtended<T>(a: seq<T>, b: seq<T>, c: seq<T>)
    requires a <= b
    ensures a <= b + c
  {
    assert (b + c)[..|b|] == b;
  }

  /** A prefix of the second part, after the whole first part. */
  lemma PrefixJoined<T>(a: seq<T>, b: seq<T>, c: seq<T>)
    requires b <= c
    ensures a + b <= a + c
  {
    assert (a + c)[..|a + b|] == a + c[..|b|];
  }

  /** How many of the calls report success. */
  function Successes(calls: seq<Call>, succeeds: set<Call>): nat
    decreases |calls|
  {
    if calls == [] then 0
    else Successes(calls[..|calls| - 1], succeeds) + (if calls[|calls| - 1] in succeeds then 1 else 0)
  }

  /** The ledger entries a run of calls adds: the player of each call that succeeds, in order. */
  function Paid(calls: seq<Call>, succeeds: set<Call>): seq<string>
    decreases |calls|
  {
    if calls == [] then []
    else
      var last := calls[|calls| - 1];
      Paid(calls[..|calls| - 1], succeeds) + (if last in succeeds then [last.player] else [])
  }

  /** `n` ledger entries for the same player. */
  function Copies(id: string, n: nat): seq<string> {
    if n == 0 then [] else Copies(id, n - 1) + [id]
  }

  /** The permissions `Init` registers: those of the enumeration that do not exist yet, in order. */
  function NewPermissions(order: seq<string>, existing: set<string>): (r: seq<string>)
    ensures forall p :: p in r <==> p in order && p !in existing
    decreases |order|
  {
    if order == [] then []
    else
      NewPermissions(order[..|order| - 1], existing)
        + (if order[|order| - 1] in existing then [] else [order[|order| - 1]])
  }

  /** The plugin's payment state: the calls asked of the currency plugins and `data.Players`. */
  datatype Money = Money(calls: seq<Call>, ledger: seq<string>)

  /** One `TryGive*`: the call is made, and the ledger records the player when it succeeds. */
  function Give(m: Money, c: Call, succeeds: set<Call>): Money {
    Money(m.calls + [c], m.ledger + (if c in succeeds then [c.player] else []))
  }

  /** One provider's step for one permission: a payment when that provider pays, nothing otherwise. */
  function PayFrom(config: Config, loaded: Loaded, m: Money, p: Provider, id: string, perm: string,
                   succeeds: set<Call>): Money {
    if Pays(config, loaded, p) then Give(m, Call(p, id, perm), succeeds) else m
  }

  /** The payment state, and whether an exception ended the connect. */
  datatype Outcome = Outcome(money: Money, threw: bool)

  /**
   * One permission of the connect: nothing when not held, otherwise the
   * three providers in order, stopping where a step throws.
   */
  function GiveFor(config: Config, loaded: Loaded, m: Money, id: string, idParses: bool, perm: string,
                   held: set<string>, succeeds: set<Call>): Outcome {
    if perm !in held then Outcome(m, false)
    else
      var e := PayFrom(config, loaded, m, Economics, id, perm, succeeds);
      if RewardsThrow(config, loaded, perm) then Outcome(e, true)
      else
        var s := PayFrom(config, loaded, e, ServerRewards, id, perm, succeeds);
        if CashThrows(config, loaded, idParses) then Outcome(s, true)
        else Outcome(PayFrom(config, loaded, s, CashSystem, id, perm, succeeds), false)
  }

  /** A whole connect: each permission of the enumeration in turn, until one throws. */
  function Connect(config: Config, loaded: Loaded, m: Money, id: string, idParses: bool, held: set<string>,
                   order: seq<string>, succeeds: set<Call>): Outcome
    decreases |order|
  {
    if order == [] then Outcome(m, false)
    else
      var prev := Connect(config, loaded, m, id, idParses, held, order[..|order| - 1], succeeds);
      if prev.threw then prev
      else GiveFor(config, loaded, prev.money, id, idParses, order[|order| - 1], held, succeeds)
  }

  // ------------------------------------------------------------ properties

  /** Ledger entries for one run of payments, then for the next. */
  lemma {:induction false} CopiesAppend(id: string, m: nat, n: nat)
    ensures Copies(id, m) + Copies(id, n) == Copies(id, m + n)
  {
    if n > 0 {
      CopiesAppend(id, m, n - 1);
    }
  }

  /** `n` copies of a player hold that player exactly when `n` is positive, and nothing else. */
  lemma {:induction false} CopiesMember(id: string, n: nat)
    ensures id in Copies(id, n) <==> n > 0
    ensures forall x :: x in Copies(id, n) ==> x == id
  {
    if n > 0 {
      CopiesMember(id, n - 1);
    }
  }

  /** Counting the successes of two runs of calls one after the other. */
  lemma {:induction false} SuccessesAppend(a: seq<Call>, b: seq<Call>, succeeds: set<Call>)
    ensures Successes(a + b, succeeds) == Successes(a, succeeds) + Successes(b, succeeds)
    decreases |b|
  {
    if b == [] {
      assert a + b == a;
    } else {
      var b' := b[..|b| - 1];
      assert (a + b)[..|a + b| - 1] == a + b';
      assert (a + b)[|a + b| - 1] == b[|b| - 1];
      SuccessesAppend(a, b', succeeds);
    }
  }

  /** A held permission is paid once by every provider that pays, and by no other. */
  lemma PermCallsExactly(config: Config, loaded: Loaded, id: string, perm: string, c: Call)
    ensures c in PermCalls(config, loaded, id, perm) <==> c.player == id && c.perm == perm && Pays(config, loaded, c.provider)
  {
    var e := ProviderCall(config, loaded, id, perm, Economics);
    var s := ProviderCall(config, loaded, id, perm, ServerRewards);
    var cs := ProviderCall(config, loaded, id, perm, CashSystem);
    assert c in e + s + cs <==> c in e || c in s || c in cs;
    assert c in e <==> c == Call(Economics, id, perm) && Pays(config, loaded, Economics);
    assert c in s <==> c == Call(ServerRewards, id, perm) && Pays(config, loaded, ServerRewards);
    assert c in cs <==> c == Call(CashSystem, id, perm) && Pays(config, loaded, CashSystem);
  }

  /** The ledger entries of two runs of calls, one after the other. */
  lemma {:induction false} PaidAppend(a: seq<Call>, b: seq<Call>, succeeds: set<Call>)
    ensures Paid(a + b, succeeds) == Paid(a, succeeds) + Paid(b, succeeds)
    decreases |b|
  {
    if b == [] {
      assert a + b == a;
    } else {
      var b' := b[..|b| - 1];
      assert (a + b)[..|a + b| - 1] == a + b';
      assert (a + b)[|a + b| - 1] == b[|b| - 1];
      PaidAppend(a, b', succeeds);
    }
  }

  /** Calls that all pay the same player add that player once per success. */
  lemma {:induction false} PaidCopies(calls: seq<Call>, succeeds: set<Call>, id: string)
    requires forall i :: 0 <= i < |calls| ==> calls[i].player == id
    ensures Paid(calls, succeeds) == Copies(id, Successes(calls, succeeds))
    decreases |calls|
  {
    if calls != [] {
      PaidCopies(calls[..|calls| - 1], succeeds, id);
    }
  }

  /** Every call of a connect pays the connecting player. */
  lemma ConnectCallsPlayer(config: Config, loaded: Loaded, id: string, held: set<string>, order: seq<string>)
    ensures forall i :: 0 <= i < |ConnectCalls(config, loaded, id, held, order)| ==>
              ConnectCalls(config, loaded, id, held, order)[i].player == id
  {
    var calls := ConnectCalls(config, loaded, id, held, order);
    forall i | 0 <= i < |calls| ensures calls[i].player == id {
      ConnectCallsExactly(config, loaded, id, held, order, calls[i]);
    }
  }

  /**
   * Exactly the held permissions of the enumeration are paid, each once by
   * every provider that is enabled and loaded; a permission the player
   * lacks contributes nothing.
   */
  lemma {:induction false} ConnectCallsExactly(config: Config, loaded: Loaded, id: string, held: set<string>,
                                               order: seq<string>, c: Call)
    ensures c in ConnectCalls(config, loaded, id, held, order) <==>
              c.player == id && c.perm in order && c.perm in held && Pays(config, loaded, c.provider)
    decreases |order|
  {
    if order != [] {
      var init := order[..|order| - 1];
      ConnectCallsExactly(config, loaded, id, held, init, c);
      PermCallsExactly(config, loaded, id, order[|order| - 1], c);
      assert order == init + [order[|order| - 1]];
      assert c.perm in order <==> c.perm in init || c.perm == order[|order| - 1];
    }
  }

  /** A connect with an enumeration without repetitions pays each permission at most once per provider. */
  lemma {:induction false} ConnectCallsDistinct(config: Config, loaded: Loaded, id: string, held: set<string>,
                                                order: seq<string>)
    requires Distinct(order)
    ensures Distinct(ConnectCalls(config, loaded, id, held, order))
    decreases |order|
  {
    if order != [] {
      var init := order[..|order| - 1];
      var perm := order[|order| - 1];
      assert Distinct(init) by {
        forall i, j | 0 <= i < j < |init| ensures init[i] != init[j] { assert init[i] == order[i] && init[j] == order[j]; }
      }
      ConnectCallsDistinct(config, loaded, id, held, init);
      var a := ConnectCalls(config, loaded, id, held, init);
      var b := if perm in held then PermCalls(config, loaded, id, perm) else [];
      assert Distinct(b);
      assert perm !in init by {
        forall i | 0 <= i < |init| ensures init[i] != perm { assert init[i] == order[i]; }
      }
      forall i, j | 0 <= i < j < |a + b| ensures (a + b)[i] != (a + b)[j] {
        if j >= |a| {
          assert (a + b)[j] == b[j - |a|] && b[j - |a|].perm == perm;
          if i < |a| {
            assert (a + b)[i] == a[i];
            ConnectCallsExactly(config, loaded, id, held, init, a[i]);
          } else {
            assert (a + b)[i] == b[i - |a|];
          }
        }
      }
    }
  }

  /**
   * The ledger is a list, checked only on entry: a first connect where two
   * payments succeed records the player twice.
   */
  lemma TwoSuccessesTwoEntries()
    ensures var config := DefaultConfig.(serverRewards := true);
            var loaded := Loaded(true, true, false);
            var calls := ConnectCalls(config, loaded, "7656", {"startermoney.default"}, ["startermoney.default"]);
            calls == [Call(Economics, "7656", "startermoney.default"), Call(ServerRewards, "7656", "startermoney.default")]
            && Successes(calls, set c | c in calls) == 2
  {
    var config := DefaultConfig.(serverRewards := true);
    var loaded := Loaded(true, true, false);
    var order := ["startermoney.default"];
    assert order[..0] == [];
    var calls := ConnectCalls(config, loaded, "7656", {"startermoney.default"}, order);
    assert calls == [Call(Economics, "7656", "startermoney.default"), Call(ServerRewards, "7656", "startermoney.default")];
    var succeeds := set c | c in calls;
    assert calls[..1] == [calls[0]] && calls[..1][..0] == [];
    assert Successes(calls[..1], succeeds) == 1;
  }

  /** The state after a run of calls: the calls are logged, and the ledger gains what they earn. */
  function After(m: Money, c: seq<Call>, succeeds: set<Call>): Money {
    Money(m.calls + c, m.ledger + Paid(c, succeeds))
  }

  /** Two runs of calls one after the other are one run of both. */
  lemma AfterAfter(m: Money, x: seq<Call>, y: seq<Call>, succeeds: set<Call>)
    ensures After(After(m, x, succeeds), y, succeeds) == After(m, x + y, succeeds)
  {
    PaidAppend(x, y, succeeds);
    assert m.calls + x + y == m.calls + (x + y);
    assert m.ledger + Paid(x, succeeds) + Paid(y, succeeds) == m.ledger + (Paid(x, succeeds) + Paid(y, succeeds));
  }

  /** No calls change nothing. */
  lemma AfterNothing(m: Money, succeeds: set<Call>)
    ensures After(m, [], succeeds) == m
  {
    assert m.calls + [] == m.calls && m.ledger + [] == m.ledger;
  }

  /** One provider's step adds its call, and the ledger entry the call earns. */
  lemma PayFromEffect(config: Config, loaded: Loaded, m: Money, p: Provider, id: string, perm: string,
                      succeeds: set<Call>)
    ensures PayFrom(config, loaded, m, p, id, perm, succeeds) ==
              After(m, ProviderCall(config, loaded, id, perm, p), succeeds)
  {
    var c := ProviderCall(config, loaded, id, perm, p);
    if Pays(config, loaded, p) {
      var call := Call(p, id, perm);
      assert c == [call] && c[..0] == [];
      assert Paid(c, succeeds) == (if call in succeeds then [call.player] else []);
    } else {
      AfterNothing(m, succeeds);
    }
  }

  /** One permission adds the calls it makes before any throw, and the ledger entries they earn. */
  lemma GiveForEffect(config: Config, loaded: Loaded, m: Money, id: string, idParses: bool, perm: string,
                      held: set<string>, succeeds: set<Call>)
    ensures var r := if perm in held then PermRun(config, loaded, id, idParses, perm) else Run([], false);
            GiveFor(config, loaded, m, id, idParses, perm, held, succeeds) == Outcome(After(m, r.calls, succeeds), r.threw)
  {
    if perm !in held {
      AfterNothing(m, succeeds);
    } else {
      var e := ProviderCall(config, loaded, id, perm, Economics);
      var s := ProviderCall(config, loaded, id, perm, ServerRewards);
      var cs := ProviderCall(config, loaded, id, perm, CashSystem);
      var m1 := PayFrom(config, loaded, m, Economics, id, perm, succeeds);
      var m2 := PayFrom(config, loaded, m1, ServerRewards, id, perm, succeeds);
      PayFromEffect(config, loaded, m, Economics, id, perm, succeeds);
      PayFromEffect(config, loaded, m1, ServerRewards, id, perm, succeeds);
      PayFromEffect(config, loaded, m2, CashSystem, id, perm, succeeds);
      AfterAfter(m, e, s, succeeds);
      AfterAfter(m, e + s, cs, succeeds);
    }
  }

  /**
   * A connect asks exactly the calls of `ConnectRun`, after the calls
   * made before, adds the ledger entries those calls earn, and throws
   * when `ConnectRun` does.
   */
  lemma {:induction false} ConnectEffect(config: Config, loaded: Loaded, m: Money, id: string, idParses: bool,
                                         held: set<string>, order: seq<string>, succeeds: set<Call>)
    ensures var r := ConnectRun(config, loaded, id, idParses, held, order);
            Connect(config, loaded, m, id, idParses, held, order, succeeds) == Outcome(After(m, r.calls, succeeds), r.threw)
    decreases |order|
  {
    if order == [] {
      AfterNothing(m, succeeds);
    } else {
      var init := order[..|order| - 1];
      var perm := order[|order| - 1];
      var prev := ConnectRun(config, loaded, id, idParses, held, init);
      ConnectEffect(config, loaded, m, id, idParses, held, init, succeeds);
      if !prev.threw {
        var r := if perm in held then PermRun(config, loaded, id, idParses, perm) else Run([], false);
        GiveForEffect(config, loaded, After(m, prev.calls, succeeds), id, idParses, perm, held, succeeds);
        AfterAfter(m, prev.calls, r.calls, succeeds);
        assert prev.calls + [] == prev.calls;
      }
    }
  }

  /**
   * A connect throws exactly when some held permission of the enumeration
   * has a step that throws.
   */
  lemma {:induction false} ConnectRunThrows(config: Config, loaded: Loaded, id: string, idParses: bool,
                                            held: set<string>, order: seq<string>)
    ensures ConnectRun(config, loaded, id, idParses, held, order).threw <==>
              exists i :: 0 <= i < |order| && order[i] in held
                          && (RewardsThrow(config, loaded, order[i]) || CashThrows(config, loaded, idParses))
    decreases |order|
  {
    if order != [] {
      var init := order[..|order| - 1];
      var perm := order[|order| - 1];
      ConnectRunThrows(config, loaded, id, idParses, held, init);
      var prev := ConnectRun(config, loaded, id, idParses, held, init);
      var here := perm in held && (RewardsThrow(config, loaded, perm) || CashThrows(config, loaded, idParses));
      ConnectRunStep(config, loaded, id, idParses, held, order);
      if prev.threw {
        var i :| 0 <= i < |init| && init[i] in held
                 && (RewardsThrow(config, loaded, init[i]) || CashThrows(config, loaded, idParses));
        assert order[i] == init[i];
      } else if !here {
        forall i | 0 <= i < |order|
          ensures !(order[i] in held && (RewardsThrow(config, loaded, order[i]) || CashThrows(config, loaded, idParses)))
        {
          if i < |init| {
            assert order[i] == init[i];
          }
        }
      }
    }
  }

  /** A connect throws exactly when the connect before its last permission did, or that permission does. */
  lemma ConnectRunStep(config: Config, loaded: Loaded, id: string, idParses: bool, held: set<string>,
                       order: seq<string>)
    requires order != []
    ensures var perm := order[|order| - 1];
            var before := ConnectRun(config, loaded, id, idParses, held, order[..|order| - 1]);
            ConnectRun(config, loaded, id, idParses, held, order).threw <==>
              before.threw || (perm in held && (RewardsThrow(config, loaded, perm) || CashThrows(config, loaded, idParses)))
  {
  }

  /** Once a prefix of the enumeration has thrown, the rest of the connect adds nothing. */
  lemma {:induction false} ThrewStays(config: Config, loaded: Loaded, m: Money, id: string, idParses: bool,
                                      held: set<string>, order: seq<string>, succeeds: set<Call>, k: nat)
    requires k <= |order| && Connect(config, loaded, m, id, idParses, held, order[..k], succeeds).threw
    ensures Connect(config, loaded, m, id, idParses, held, order, succeeds)
         == Connect(config, loaded, m, id, idParses, held, order[..k], succeeds)
    decreases |order|
  {
    if k < |order| {
      var init := order[..|order| - 1];
      assert init[..k] == order[..k];
      ThrewStays(config, loaded, m, id, idParses, held, init, succeeds, k);
    } else {
      assert order[..k] == order;
    }
  }

  /** Every call a connect makes pays the connecting player. */
  lemma ConnectRunPlayer(config: Config, loaded: Loaded, id: string, idParses: bool, held: set<string>,
                         order: seq<string>)
    ensures var calls := ConnectRun(config, loaded, id, idParses, held, order).calls;
            forall i :: 0 <= i < |calls| ==> calls[i].player == id
  {
    var calls := ConnectRun(config, loaded, id, idParses, held, order).calls;
    var all := ConnectCalls(config, loaded, id, held, order);
    ConnectCallsPlayer(config, loaded, id, held, order);
    assert forall i :: 0 <= i < |calls| ==> calls[i] == all[i];
  }

  /** The ledger gains the connecting player once per call that succeeded, and nothing else. */
  lemma ConnectLedger(config: Config, loaded: Loaded, m: Money, id: string, idParses: bool, held: set<string>,
                      order: seq<string>, succeeds: set<Call>)
    ensures Connect(config, loaded, m, id, idParses, held, order, succeeds).money.ledger ==
              m.ledger + Copies(id, Successes(ConnectRun(config, loaded, id, idParses, held, order).calls, succeeds))
  {
    ConnectEffect(config, loaded, m, id, idParses, held, order, succeeds);
    ConnectRunPlayer(config, loaded, id, idParses, held, order);
    PaidCopies(ConnectRun(config, loaded, id, idParses, held, order).calls, succeeds, id);
  }

  /**
   * A throw only loses payments: the ledger after it, with one entry for
   * each success among the calls it skipped, is the ledger of the connect
   * that nothing interrupts.
   */
  lemma ThrowLosesPayments(config: Config, loaded: Loaded, m: Money, id: string, idParses: bool,
                           held: set<string>, order: seq<string>, succeeds: set<Call>)
    ensures var all := ConnectCalls(config, loaded, id, held, order);
            var skipped := all[|ConnectRun(config, loaded, id, idParses, held, order).calls|..];
            Connect(config, loaded, m, id, idParses, held, order, succeeds).money.ledger + Copies(id, Successes(skipped, succeeds))
              == m.ledger + Copies(id, Successes(all, succeeds))
  {
    var all := ConnectCalls(config, loaded, id, held, order);
    var made := ConnectRun(config, loaded, id, idParses, held, order).calls;
    var skipped := all[|made|..];
    assert all == made + skipped;
    ConnectLedger(config, loaded, m, id, idParses, held, order, succeeds);
    LedgerRejoined(m.ledger, id, made, skipped, succeeds);
  }

  /** Ledger entries for the calls made, then for the skipped ones, are those of all the calls. */
  lemma LedgerRejoined(ledger: seq<string>, id: string, made: seq<Call>, skipped: seq<Call>, succeeds: set<Call>)
    ensures ledger + Copies(id, Successes(made, succeeds)) + Copies(id, Successes(skipped, succeeds))
         == ledger + Copies(id, Successes(made + skipped, succeeds))
  {
    SuccessesAppend(made, skipped, succeeds);
    CopiesAppend(id, Successes(made, succeeds), Successes(skipped, succeeds));
  }

  /**
   * With Economics and Cash System on, an id that `ulong.Parse` rejects
   * stops the connect after the first Economics payment: the second
   * permission is never paid.
   */
  lemma UnparsedIdStopsConnect(id: string)
    ensures var config := DefaultConfig.(cashSystem := true);
            var loaded := Loaded(true, false, true);
            var held := {"startermoney.default", "startermoney.vip"};
            ConnectRun(config, loaded, id, false, held, ["startermoney.default", "startermoney.vip"])
              == Run([Call(Economics, id, "startermoney.default")], true)
  {
    var order := ["startermoney.default", "startermoney.vip"];
    assert order[..1] == ["startermoney.default"] && order[..1][..0] == [];
  }

  /**
   * Once any payment of the connect succeeded, the player is in the
   * ledger, so a later connect pays nothing; when none succeeded the
   * ledger is unchanged and the next connect pays again.
   */
  lemma ConnectOnce(config: Config, loaded: Loaded, m: Money, id: string, idParses: bool, held: set<string>,
                    order: seq<string>, succeeds: set<Call>)
    requires id !in m.ledger
    ensures var n := Successes(ConnectRun(config, loaded, id, idParses, held, order).calls, succeeds);
            id in Connect(config, loaded, m, id, idParses, held, order, succeeds).money.ledger <==> n > 0
  {
    ConnectLedger(config, loaded, m, id, idParses, held, order, succeeds);
    var n := Successes(ConnectRun(config, loaded, id, idParses, held, order).calls, succeeds);
    CopiesMember(id, n);
  }

  // ------------------------------------------------------------- the plugin

  class StarterMoney {
    const config: Config
    /** `data.Players`: one entry per successful payment. */
    var ledger: seq<string>
    /** The contents of the plugin's data file. */
    var stored: seq<string>
    /** The payments asked of the currency plugins, in order. */
    var calls: seq<Call>
    /** The permissions the permission system knows of. */
    var registered: set<string>
    /** The permissions the plugin registered, in order. */
    var registrations: seq<string>

    /**
     * `Init`: reads the data file, then registers every configured
     * permission that does not exist yet, in enumeration order.
     */
    constructor Init(config: Config, stored: seq<string>, existing: set<string>, order: seq<string>)
      requires IsEnumeration(order, config.permissions.Keys)
      ensures this.config == config && ledger == stored && this.stored == stored && calls == []
      ensures registered == existing + config.permissions.Keys
      ensures registrations == NewPermissions(order, existing)
    {
      this.config := config;
      ledger := stored;
      this.stored := stored;
      calls := [];
      registered := existing;
      registrations := [];
      new;
      var i := 0;
      while i < |order|
        invariant 0 <= i <= |order|
        invariant registered == existing + set j | 0 <= j < i :: order[j]
        invariant registrations == NewPermissions(order[..i], existing)
        modifies this`registered, this`registrations
      {
        assert order[..i + 1][..i] == order[..i];
        var perm := order[i];
        if perm !in registered {
          registered := registered + {perm};
          registrations := registrations + [perm];
        }
        i := i + 1;
      }
      assert order[..|order|] == order;
      assert (set j | 0 <= j < |order| :: order[j]) == config.permissions.Keys by {
        forall k ensures k in config.permissions.Keys ==> k in (set j | 0 <= j < |order| :: order[j]) {
          if k in config.permissions.Keys {
            var j := IndexOf(order, k);
          }
        }
      }
    }

    /** The payments and the ledger, as one value. */
    function Snapshot(): Money
      reads this
    {
      Money(calls, ledger)
    }

    /**
     * `TryGiveEconomics`, `TryGiveRP`, `TryGiveCS`: the ledger records the
     * player when the payment succeeds. `TryGiveCS` parses the player id
     * before the call, and throws when that fails.
     */
    method TryGive(c: Call, succeeds: set<Call>, idParses: bool) returns (threw: bool)
      modifies this`calls, this`ledger
      ensures threw <==> c.provider == CashSystem && !idParses
      ensures threw ==> Snapshot() == old(Snapshot())
      ensures !threw ==> Snapshot() == Give(old(Snapshot()), c, succeeds)
    {
      if c.provider == CashSystem && !idParses {
        return true;
      }
      calls := calls + [c];
      if c in succeeds {
        ledger := ledger + [c.player];
      }
      threw := false;
    }

    /**
     * The body of the `ForEach` over the permissions: one permission, each
     * paying provider in turn. `Convert.ToInt32` of the amount comes
     * before the Server Rewards call and can throw.
     */
    method GivePermission(id: string, perm: string, held: set<string>, loaded: Loaded, idParses: bool,
                          succeeds: set<Call>) returns (threw: bool)
      requires perm in config.permissions
      modifies this`calls, this`ledger
      ensures Outcome(Snapshot(), threw) == GiveFor(config, loaded, old(Snapshot()), id, idParses, perm, held, succeeds)
    {
      if perm !in held {
        return false;
      }
      if config.economics && loaded.economics {
        threw := TryGive(Call(Economics, id, perm), succeeds, idParses);
      }
      if config.serverRewards && loaded.serverRewards {
        if !FitsInt32(config.permissions[perm]) {
          return true;
        }
        threw := TryGive(Call(ServerRewards, id, perm), succeeds, idParses);
      }
      if config.cashSystem && loaded.cashSystem {
        threw := TryGive(Call(CashSystem, id, perm), succeeds, idParses);
        if threw {
          return;
        }
      }
      threw := false;
    }

    /**
     * `OnUserConnected`: nothing for a player already in the ledger;
     * otherwise every held permission, in enumeration order, is paid by
     * every enabled and loaded provider until a step throws (see
     * `ConnectEffect`, `ConnectRunThrows` and `ConnectLedger`).
     */
    method OnUserConnected(id: string, held: set<string>, loaded: Loaded, idParses: bool, succeeds: set<Call>,
                           order: seq<string>) returns (threw: bool)
      requires IsEnumeration(order, config.permissions.Keys)
      modifies this`calls, this`ledger
      ensures id in old(ledger) ==> Snapshot() == old(Snapshot()) && !threw
      ensures id !in old(ledger) ==>
                Outcome(Snapshot(), threw) == Connect(config, loaded, old(Snapshot()), id, idParses, held, order, succeeds)
    {
      if id in ledger {
        return false;
      }
      var i := 0;
      while i < |order|
        invariant 0 <= i <= |order|
        invariant Outcome(Snapshot(), false) == Connect(config, loaded, old(Snapshot()), id, idParses, held, order[..i], succeeds)
      {
        assert order[..i + 1][..i] == order[..i];
        threw := GivePermission(id, order[i], held, loaded, idParses, succeeds);
        if threw {
          ThrewStays(config, loaded, old(Snapshot()), id, idParses, held, order, succeeds, i + 1);
          return;
        }
        i := i + 1;
      }
      assert order[..|order|] == order;
      threw := false;
    }

    /** `OnNewSave`: the ledger is cleared when the configuration asks for it. */
    method OnNewSave()
      modifies this`ledger
      ensures ledger == if config.clearData then [] else old(ledger)
    {
      if !config.clearData {
        return;
      }
      ledger := [];
    }

    /** `OnServerSave` and `Unload`: the ledger is written to the data file. */
    method SaveData()
      modifies this`stored
      ensures stored == ledger
    {
      stored := ledger;
    }
  }
}
