/**
 The hash-chained audit log of packages/shared/src/audit/index.ts.

 JSON serialisation and SHA-256 are parameters.  The theorems assume only that hashes have one length
 and that serialisation is injective; collisions, which every such hash has, are part of the conclusions.
 */
module AuditChains {
  import opened Options
  import opened Runs

  /** The hashed part of an entry; structured fields are given as their JSON text. */
  datatype Content = Content(
    version: string, timestamp: string, eventId: string, eventType: string, severity: string,
    actor: string, target: Option<string>, action: string, context: string)

  /** `integrity.previousHash` ends up holding the hash of the entry itself. */
  datatype Entry = Entry(content: Content, previousHash: string, chainId: string)

  datatype Chain = Chain(entries: seq<Entry>, lastHash: string)

  datatype Hashing = Hashing(json: Content -> string, sha256: string -> string)

  const GENESIS := Digits('0', 64)
  const MAX_ENTRIES := 10000
  const EMPTY_CHAIN := Chain([], GENESIS)

  /** `n` copies of one digit. */
  function Digits(c: char, n: nat): (s: string)
    ensures |s| == n && forall i :: 0 <= i < n ==> s[i] == c
  {
    if n == 0 then "" else Digits(c, n - 1) + [c]
  }

  function HashEntry(h: Hashing, content: Content, previousHash: string): string {
    h.sha256(h.json(content) + previousHash)
  }

  function ChainOf(chains: map<string, Chain>, chainId: string): Chain {
    if chainId in chains then chains[chainId] else EMPTY_CHAIN
  }

  function NextEntry(h: Hashing, chain: Chain, chainId: string, content: Content): Entry {
    Entry(content, HashEntry(h, content, chain.lastHash), chainId)
  }

  /** The latest `MAX_ENTRIES` entries. */
  function Window(entries: seq<Entry>): seq<Entry> {
    if |entries| > MAX_ENTRIES then entries[|entries| - MAX_ENTRIES..] else entries
  }

  function Extended(h: Hashing, chain: Chain, chainId: string, content: Content): Chain {
    var entry := NextEntry(h, chain, chainId, content);
    Chain(Window(chain.entries + [entry]), entry.previousHash)
  }

  predicate LinkedAt(h: Hashing, entries: seq<Entry>, start: string, i: nat)
    requires i < |entries|
  {
    var before := if i == 0 then start else entries[i - 1].previousHash;
    entries[i].previousHash == HashEntry(h, entries[i].content, before)
  }

  /** Each stored hash is that of its entry and the hash stored before it, the first one starting from `start`. */
  predicate Linked(h: Hashing, entries: seq<Entry>, start: string) {
    forall i :: 0 <= i < |entries| ==> LinkedAt(h, entries, start, i)
  }

  class AuditLog {
    const h: Hashing
    var chains: map<string, Chain>

    constructor (h: Hashing)
      ensures this.h == h && chains == map[]
    {
      this.h := h;
      chains := map[];
    }

    method GetChain(chainId: string) returns (chain: Chain)
      modifies this`chains
      ensures chain == ChainOf(old(chains), chainId)
      ensures chains == old(chains)[chainId := chain]
    {
      if chainId in chains {
        chain := chains[chainId];
      } else {
        chain := Chain([], GENESIS);
        chains := chains[chainId := chain];
      }
    }

    method CreateAuditEntry(chainId: string, content: Content) returns (entry: Entry)
      modifies this`chains
      ensures entry == NextEntry(h, ChainOf(old(chains), chainId), chainId, content)
      ensures chains == old(chains)[chainId := Extended(h, ChainOf(old(chains), chainId), chainId, content)]
    {
      var chain := GetChain(chainId);
      var previousHash := chain.lastHash;
      entry := Entry(content, previousHash, chainId);
      entry := entry.(previousHash := HashEntry(h, content, previousHash));
      var entries := chain.entries + [entry];
      var lastHash := entry.previousHash;
      if |entries| > MAX_ENTRIES {
        entries := entries[|entries| - MAX_ENTRIES..];
      }
      chains := chains[chainId := Chain(entries, lastHash)];
    }

    method GetAuditChain(chainId: string) returns (entries: seq<Entry>)
      modifies this`chains
      ensures entries == ChainOf(old(chains), chainId).entries
      ensures chains == old(chains)[chainId := ChainOf(old(chains), chainId)]
    {
      var chain := GetChain(chainId);
      entries := chain.entries;
    }
  }

  method VerifyAuditChain(h: Hashing, entries: seq<Entry>) returns (ok: bool)
    ensures ok <==> Linked(h, entries, GENESIS)
  {
    var previousHash := GENESIS;
    for i := 0 to |entries|
      invariant forall j :: 0 <= j < i ==> LinkedAt(h, entries, GENESIS, j)
      invariant previousHash == if i == 0 then GENESIS else entries[i - 1].previousHash
    {
      var expectedHash := HashEntry(h, entries[i].content, previousHash);
      if entries[i].previousHash != expectedHash {
        assert !LinkedAt(h, entries, GENESIS, i);
        return false;
      }
      previousHash := entries[i].previousHash;
    }
    return true;
  }

  // ----- Runs -----

  datatype Event = Create(chainId: string, content: Content) | Read(chainId: string)

  function StateAfter(h: Hashing, run: Run<Event>): map<string, Chain> {
    match run
    case Start => map[]
    case Then(before, e) =>
      var chains := StateAfter(h, before);
      var chain := ChainOf(chains, e.chainId);
      chains[e.chainId := if e.Create? then Extended(h, chain, e.chainId, e.content) else chain]
  }

  /** Everything ever appended to the chain, with the hashes that `createAuditEntry` returned. */
  function History(h: Hashing, run: Run<Event>, chainId: string): seq<Entry> {
    match run
    case Start => []
    case Then(before, e) =>
      var history := History(h, before, chainId);
      if e.Create? && e.chainId == chainId then
        history + [NextEntry(h, ChainOf(StateAfter(h, before), chainId), chainId, e.content)]
      else history
  }

  function LastHash(entries: seq<Entry>): string {
    if entries == [] then GENESIS else entries[|entries| - 1].previousHash
  }

  lemma WindowPush(entries: seq<Entry>, entry: Entry)
    ensures Window(Window(entries) + [entry]) == Window(entries + [entry])
  {
  }

  lemma LinkedPush(h: Hashing, entries: seq<Entry>, entry: Entry)
    requires Linked(h, entries, GENESIS) && entry.previousHash == HashEntry(h, entry.content, LastHash(entries))
    ensures Linked(h, entries + [entry], GENESIS)
  {
    forall i | 0 <= i < |entries| + 1 ensures LinkedAt(h, entries + [entry], GENESIS, i) {
      assert i < |entries| ==> LinkedAt(h, entries, GENESIS, i);
    }
  }

  /** The history is linked from the genesis hash, and the chain keeps its latest entries. */
  lemma {:induction false} ChainIsWindow(h: Hashing, run: Run<Event>, chainId: string)
    ensures var history := History(h, run, chainId);
      Linked(h, history, GENESIS) && ChainOf(StateAfter(h, run), chainId) == Chain(Window(history), LastHash(history))
  {
    if run.Then? {
      var e, history := run.event, History(h, run.before, chainId);
      ChainIsWindow(h, run.before, chainId);
      if e.Create? && e.chainId == chainId {
        var entry := NextEntry(h, ChainOf(StateAfter(h, run.before), chainId), chainId, e.content);
        WindowPush(history, entry);
        LinkedPush(h, history, entry);
      }
    }
  }

  /** The contents passed to `createAuditEntry` for this chain, in order. */
  function Created(run: Run<Event>, chainId: string): seq<Content> {
    match run
    case Start => []
    case Then(before, e) => Created(before, chainId) + if e.Create? && e.chainId == chainId then [e.content] else []
  }

  /** The history of a chain consists of the contents created for it and nothing else, each marked with the chain. */
  lemma {:induction false} HistoryIsCreated(h: Hashing, run: Run<Event>, chainId: string)
    ensures var history, created := History(h, run, chainId), Created(run, chainId);
      |history| == |created| && forall i :: 0 <= i < |created| ==> history[i].content == created[i] && history[i].chainId == chainId
  {
    if run.Then? {
      hide StateAfter, HashEntry;
      HistoryIsCreated(h, run.before, chainId);
    }
  }

  /** While a chain has had at most 10000 entries, `verifyAuditChain` accepts what `getAuditChain` returns. */
  lemma ChainVerifies(h: Hashing, run: Run<Event>, chainId: string)
    requires |History(h, run, chainId)| <= 10000
    ensures Linked(h, ChainOf(StateAfter(h, run), chainId).entries, GENESIS)
  {
    ChainIsWindow(h, run, chainId);
  }

  /** After truncation the retained window is linked from the hash of the entry dropped last. */
  lemma {:induction false} RetainedWindowVerifies(h: Hashing, run: Run<Event>, chainId: string)
    requires |History(h, run, chainId)| > MAX_ENTRIES
    ensures var history := History(h, run, chainId);
      Linked(h, ChainOf(StateAfter(h, run), chainId).entries, history[|history| - MAX_ENTRIES - 1].previousHash)
  {
    hide History, StateAfter, Linked;
    var history := History(h, run, chainId);
    var k := |history| - MAX_ENTRIES;
    ChainIsWindow(h, run, chainId);
    DropLinked(h, history, k);
  }

  lemma DropLinked(h: Hashing, entries: seq<Entry>, k: nat)
    requires Linked(h, entries, GENESIS) && 0 < k <= |entries|
    ensures Linked(h, entries[k..], entries[k - 1].previousHash)
  {
    var rest, start := entries[k..], entries[k - 1].previousHash;
    forall i | 0 <= i < |rest| ensures LinkedAt(h, rest, start, i) {
      assert LinkedAt(h, entries, GENESIS, k + i);
    }
  }

  // ----- Tampering -----

  /** The string whose hash the i-th entry stores when the chain is linked from genesis. */
  function Hashed(h: Hashing, entries: seq<Entry>, i: nat): string
    requires i < |entries|
  {
    h.json(entries[i].content) + LastHash(entries[..i])
  }

  predicate Collision(h: Hashing, x: string, y: string) {
    x != y && h.sha256(x) == h.sha256(y)
  }

  ghost predicate FixedLength(h: Hashing) {
    forall x :: |h.sha256(x)| == |GENESIS|
  }

  ghost predicate InjectiveJson(h: Hashing) {
    forall c, d :: h.json(c) == h.json(d) ==> c == d
  }

  /** The strings hashed by the k-th entry from the end of either chain are two strings with one hash. */
  predicate CollideFromEnd(h: Hashing, a: seq<Entry>, b: seq<Entry>, k: nat) {
    k < |a| && k < |b| && Collision(h, Hashed(h, a, |a| - 1 - k), Hashed(h, b, |b| - 1 - k))
  }

  predicate SameEntry(a: Entry, b: Entry) {
    a.content == b.content && a.previousHash == b.previousHash
  }

  predicate GenesisNotReached(entries: seq<Entry>) {
    forall i :: 0 <= i < |entries| ==> entries[i].previousHash != GENESIS
  }

  /** The two assumptions can be met together: any serialisation that marks where each field ends will do. */
  lemma AssumptionsHaveAModel()
    ensures exists h :: FixedLength(h) && InjectiveJson(h)
  {
    var h := Hashing(c => Coded(Fields(c)), x => GENESIS);
    forall c, d | h.json(c) == h.json(d) ensures c == d {
      CodedInjective(Fields(c), Fields(d));
      FieldsInjective(c, d);
    }
    assert FixedLength(h) && InjectiveJson(h);
  }

  function Fields(c: Content): seq<string> {
    [c.version, c.timestamp, c.eventId, c.eventType, c.severity, c.actor,
     if c.target.Some? then "1" + c.target.value else "", c.action, c.context]
  }

  lemma FieldsInjective(c: Content, d: Content)
    requires Fields(c) == Fields(d)
    ensures c == d
  {
    var f, g := Fields(c), Fields(d);
    assert f[0] == g[0] && f[1] == g[1] && f[2] == g[2] && f[3] == g[3] && f[4] == g[4];
    assert f[5] == g[5] && f[6] == g[6] && f[7] == g[7] && f[8] == g[8];
    assert c.target.Some? ==> c.target.value == f[6][1..];
    assert d.target.Some? ==> d.target.value == g[6][1..];
  }

  /** Each field after its length in ones and a zero. */
  function Coded(fields: seq<string>): string {
    if fields == [] then "" else Digits('1', |fields[0]|) + "0" + fields[0] + Coded(fields[1..])
  }

  lemma BlockFixed(a: string, x: string, b: string, y: string)
    requires Digits('1', |a|) + "0" + a + x == Digits('1', |b|) + "0" + b + y
    ensures a == b && x == y
  {
    var s := Digits('1', |a|) + "0" + a + x;
    assert s[|a|] == '0' && s[|b|] == '0';
    assert |a| == |b|;
    assert a == s[|a| + 1..2 * |a| + 1] == b && x == s[2 * |a| + 1..] == y;
  }

  lemma {:induction false} CodedInjective(f: seq<string>, g: seq<string>)
    requires |f| == |g| && Coded(f) == Coded(g)
    ensures f == g
  {
    if f != [] {
      BlockFixed(f[0], Coded(f[1..]), g[0], Coded(g[1..]));
      CodedInjective(f[1..], g[1..]);
    }
  }

  lemma SplitAtEnd(a: string, b: string, p: string, q: string)
    requires a + p == b + q && |p| == |q|
    ensures a == b && p == q
  {
    assert |a| == |b|;
    assert a == (a + p)[..|a|] == (b + q)[..|b|] == b;
    assert p == (a + p)[|a|..] == (b + q)[|b|..] == q;
  }

  lemma LinkedInit(h: Hashing, a: seq<Entry>)
    requires Linked(h, a, GENESIS) && a != []
    ensures Linked(h, a[..|a| - 1], GENESIS)
    ensures LastHash(a) == h.sha256(Hashed(h, a, |a| - 1))
  {
    var init := a[..|a| - 1];
    forall i | 0 <= i < |init| ensures LinkedAt(h, init, GENESIS, i) {
      assert LinkedAt(h, a, GENESIS, i);
    }
    assert LinkedAt(h, a, GENESIS, |a| - 1);
  }

  lemma HashLength(h: Hashing, a: seq<Entry>)
    requires FixedLength(h) && Linked(h, a, GENESIS)
    ensures |LastHash(a)| == |GENESIS|
  {
    if a != [] {
      LinkedInit(h, a);
    }
  }

  /** The last entries of two linked chains with one last hash: equal with equal hashes before them, unless they collide. */
  lemma SameLastEntry(h: Hashing, a: seq<Entry>, b: seq<Entry>)
    requires FixedLength(h) && InjectiveJson(h)
    requires Linked(h, a, GENESIS) && Linked(h, b, GENESIS) && LastHash(a) == LastHash(b)
    requires a != [] && b != [] && !CollideFromEnd(h, a, b, 0)
    ensures SameEntry(a[|a| - 1], b[|b| - 1])
    ensures LastHash(a[..|a| - 1]) == LastHash(b[..|b| - 1])
  {
    hide Linked;
    var m, n := |a| - 1, |b| - 1;
    LinkedInit(h, a);
    LinkedInit(h, b);
    HashLength(h, a[..m]);
    HashLength(h, b[..n]);
    SplitAtEnd(h.json(a[m].content), h.json(b[n].content), LastHash(a[..m]), LastHash(b[..n]));
  }

  lemma HashedOfInit(h: Hashing, a: seq<Entry>, i: nat)
    requires i < |a| - 1
    ensures Hashed(h, a[..|a| - 1], i) == Hashed(h, a, i)
  {
    assert a[..|a| - 1][..i] == a[..i];
  }

  lemma CollideInInit(h: Hashing, a: seq<Entry>, b: seq<Entry>, k: nat)
    requires a != [] && b != [] && CollideFromEnd(h, a[..|a| - 1], b[..|b| - 1], k)
    ensures CollideFromEnd(h, a, b, k + 1)
  {
    HashedOfInit(h, a, |a| - 2 - k);
    HashedOfInit(h, b, |b| - 2 - k);
  }

  predicate AgreeAtEnd(a: seq<Entry>, b: seq<Entry>, k: nat) {
    k < |a| && k < |b| && SameEntry(a[|a| - 1 - k], b[|b| - 1 - k])
  }

  lemma AgreeInInit(a: seq<Entry>, b: seq<Entry>, k: nat)
    requires a != [] && b != [] && AgreeAtEnd(Init(a), Init(b), k)
    ensures AgreeAtEnd(a, b, k + 1)
  {
  }

  function Init(a: seq<Entry>): (r: seq<Entry>)
    requires a != []
    ensures |r| == |a| - 1
  {
    a[..|a| - 1]
  }

  /** The chain without its last `n` entries. */
  function Front(a: seq<Entry>, n: nat): seq<Entry>
    requires n <= |a|
  {
    a[..|a| - n]
  }

  lemma FrontIs(a: seq<Entry>)
    ensures Front(a, 0) == a
    ensures a != [] ==> forall n: nat :: 1 <= n <= |a| ==> Front(Init(a), n - 1) == Front(a, n)
  {
  }

  /** One step of the induction from the end. */
  lemma InitsToo(h: Hashing, a: seq<Entry>, b: seq<Entry>, n: nat)
    requires FixedLength(h) && InjectiveJson(h)
    requires Linked(h, a, GENESIS) && Linked(h, b, GENESIS) && LastHash(a) == LastHash(b)
    requires 1 <= n <= |a| && n <= |b| && forall k :: 0 <= k < n ==> !CollideFromEnd(h, a, b, k)
    ensures AgreeAtEnd(a, b, 0)
    ensures Linked(h, Init(a), GENESIS) && Linked(h, Init(b), GENESIS) && LastHash(Init(a)) == LastHash(Init(b))
    ensures forall k :: 0 <= k < n - 1 ==> !CollideFromEnd(h, Init(a), Init(b), k)
  {
    hide Linked, CollideFromEnd, FixedLength, InjectiveJson, LastHash, SameEntry;
    SameLastEntry(h, a, b);
    LinkedInit(h, a);
    LinkedInit(h, b);
    forall k | 0 <= k < n - 1 ensures !CollideFromEnd(h, Init(a), Init(b), k) {
      if CollideFromEnd(h, Init(a), Init(b), k) {
        CollideInInit(h, a, b, k);
      }
    }
  }

  /** Two verifying chains with one last hash agree from the end on, as far as the shorter one goes, unless SHA-256 collides on them. */
  lemma {:induction false} AgreeFromEnd(h: Hashing, a: seq<Entry>, b: seq<Entry>, n: nat)
    requires FixedLength(h) && InjectiveJson(h)
    requires Linked(h, a, GENESIS) && Linked(h, b, GENESIS) && LastHash(a) == LastHash(b)
    requires n <= |a| && n <= |b| && forall k :: 0 <= k < n ==> !CollideFromEnd(h, a, b, k)
    ensures LastHash(Front(a, n)) == LastHash(Front(b, n))
    ensures forall k :: 0 <= k < n ==> AgreeAtEnd(a, b, k)
    decreases n
  {
    hide Linked, CollideFromEnd, FixedLength, InjectiveJson, LastHash, AgreeAtEnd, Front, Init;
    FrontIs(a);
    FrontIs(b);
    if n > 0 {
      InitsToo(h, a, b, n);
      AgreeFromEnd(h, Init(a), Init(b), n - 1);
      forall k | 1 <= k < n ensures AgreeAtEnd(a, b, k) {
        AgreeInInit(a, b, k - 1);
      }
    }
  }

  lemma SameEntriesSameHashed(h: Hashing, a: seq<Entry>, b: seq<Entry>, i: nat)
    requires |a| == |b| && i < |a| && forall j :: 0 <= j < |a| ==> SameEntry(a[j], b[j])
    ensures Hashed(h, a, i) == Hashed(h, b, i)
  {
    assert SameEntry(a[i], b[i]);
    if i > 0 {
      assert SameEntry(a[i - 1], b[i - 1]);
    }
  }

  /**
   Tamper evidence: two verifying chains of equal length with the same last hash agree in every
   content and hash if and only if SHA-256 has no collision between the strings they hash at one position.
   */
  lemma {:induction false} LastHashFixesChain(h: Hashing, a: seq<Entry>, b: seq<Entry>)
    requires FixedLength(h) && InjectiveJson(h)
    requires Linked(h, a, GENESIS) && Linked(h, b, GENESIS)
    requires |a| == |b| && LastHash(a) == LastHash(b)
    ensures (forall i :: 0 <= i < |a| ==> SameEntry(a[i], b[i]))
       <==> (forall i :: 0 <= i < |a| ==> !Collision(h, Hashed(h, a, i), Hashed(h, b, i)))
  {
    hide Linked, FixedLength, InjectiveJson, Hashed, Collision, SameEntry;
    if forall i :: 0 <= i < |a| ==> SameEntry(a[i], b[i]) {
      forall i | 0 <= i < |a| ensures !Collision(h, Hashed(h, a, i), Hashed(h, b, i)) {
        SameEntriesSameHashed(h, a, b, i);
        NoSelfCollision(h, Hashed(h, a, i));
      }
    }
    if forall i :: 0 <= i < |a| ==> !Collision(h, Hashed(h, a, i), Hashed(h, b, i)) {
      AgreeFromEnd(h, a, b, |a|);
      forall i | 0 <= i < |a| ensures SameEntry(a[i], b[i]) {
        assert AgreeAtEnd(a, b, |a| - 1 - i);
      }
    }
  }

  lemma NoSelfCollision(h: Hashing, x: string)
    ensures !Collision(h, x, x)
  {
  }

  /** As long as no stored hash is the genesis value, chains of different length with one last hash are a collision as well. */
  lemma {:induction false} LastHashFixesLength(h: Hashing, a: seq<Entry>, b: seq<Entry>)
    requires FixedLength(h) && InjectiveJson(h)
    requires Linked(h, a, GENESIS) && Linked(h, b, GENESIS) && LastHash(a) == LastHash(b)
    requires GenesisNotReached(a) && GenesisNotReached(b)
    ensures |a| == |b| || exists k :: 0 <= k < |a| && k < |b| && CollideFromEnd(h, a, b, k)
  {
    hide Linked, FixedLength, InjectiveJson, CollideFromEnd;
    var n := if |a| < |b| then |a| else |b|;
    if forall k :: 0 <= k < n ==> !CollideFromEnd(h, a, b, k) {
      AgreeFromEnd(h, a, b, n);
    }
  }

  // ----- Verification after truncation -----

  /** A linked chain without its first k entries verifies from genesis only if its first entry hashes alike after both. */
  lemma SuffixVerifiesIff(h: Hashing, entries: seq<Entry>, k: nat)
    requires Linked(h, entries, GENESIS) && 0 < k < |entries|
    ensures Linked(h, entries[k..], GENESIS)
       <==> HashEntry(h, entries[k].content, entries[k - 1].previousHash) == HashEntry(h, entries[k].content, GENESIS)
  {
    var rest := entries[k..];
    assert LinkedAt(h, entries, GENESIS, k);
    if LinkedAt(h, rest, GENESIS, 0) {
      forall i | 0 <= i < |rest| ensures LinkedAt(h, rest, GENESIS, i) {
        assert LinkedAt(h, entries, GENESIS, k + i);
      }
    }
  }

  /**
   `verifyAuditChain` always starts from the genesis hash.  So it accepts what `getAuditChain`
   returns if and only if nothing has been truncated yet, or the entry dropped last happens to have
   the genesis value as its hash, or SHA-256 collides on two strings that end in the dropped hash and in genesis.
   */
  lemma {:induction false} VerifiesIffNotTruncated(h: Hashing, run: Run<Event>, chainId: string)
    ensures var history := History(h, run, chainId);
      Linked(h, ChainOf(StateAfter(h, run), chainId).entries, GENESIS) <==>
      (|history| > MAX_ENTRIES ==>
        var dropped, first := history[|history| - MAX_ENTRIES - 1], history[|history| - MAX_ENTRIES];
        || dropped.previousHash == GENESIS
        || Collision(h, h.json(first.content) + dropped.previousHash, h.json(first.content) + GENESIS))
  {
    hide Linked, History, StateAfter;
    var history := History(h, run, chainId);
    ChainIsWindow(h, run, chainId);
    if |history| > MAX_ENTRIES {
      var k := |history| - MAX_ENTRIES;
      SuffixVerifiesIff(h, history, k);
      var json, dropped := h.json(history[k].content), history[k - 1].previousHash;
      if json + dropped == json + GENESIS {
        assert dropped == (json + dropped)[|json|..] == (json + GENESIS)[|json|..] == GENESIS;
      }
    }
  }

  /** `n` entries with the given contents on one chain. */
  function Entries(contents: nat -> Content, n: nat): Run<Event> {
    if n == 0 then Start else Then(Entries(contents, n - 1), Create("default", contents(n - 1)))
  }

  const ONES := Digits('1', 64)
  const TWOS := Digits('2', 64)

  /** A hash with two values, by which strings that end in genesis differ from those that end in a hash. */
  function TwoValued(json: Content -> string): Hashing {
    Hashing(json, (x: string) => if |x| >= 64 && x[|x| - 64..] == GENESIS then ONES else TWOS)
  }

  lemma TwoValuedHash(json: Content -> string, content: Content, before: string)
    requires |before| == 64
    ensures HashEntry(TwoValued(json), content, before) == if before == GENESIS then ONES else TWOS
  {
    var x := json(content) + before;
    assert x[|x| - 64..] == before;
  }

  /** The hashes of the entries: the first differs from all later ones, and none is genesis. */
  function HashAt(i: nat): string {
    if i == 0 then ONES else TWOS
  }

  lemma ThreeHashes()
    ensures GENESIS != ONES && GENESIS != TWOS && ONES != TWOS
    ensures |ONES| == |TWOS| == 64
  {
    assert GENESIS[0] == '0';
    assert ONES[0] == '1';
    assert TWOS[0] == '2';
  }

  predicate TwoValuedEntries(contents: nat -> Content, history: seq<Entry>) {
    forall i :: 0 <= i < |history| ==> history[i].content == contents(i) && history[i].previousHash == HashAt(i)
  }

  lemma NextTwoValued(json: Content -> string, contents: nat -> Content, history: seq<Entry>, entry: Entry)
    requires TwoValuedEntries(contents, history)
    requires entry == NextEntry(TwoValued(json), Chain(Window(history), LastHash(history)), "default", contents(|history|))
    ensures TwoValuedEntries(contents, history + [entry])
  {
    hide HashEntry, TwoValued, ONES, TWOS, Window;
    ThreeHashes();
    TwoValuedHash(json, contents(|history|), LastHash(history));
  }

  lemma {:induction false} TwoValuedHistory(json: Content -> string, contents: nat -> Content, n: nat)
    ensures var history := History(TwoValued(json), Entries(contents, n), "default");
      |history| == n && TwoValuedEntries(contents, history)
  {
    hide StateAfter, Linked, HashEntry, TwoValued, NextEntry, TwoValuedEntries;
    var h := TwoValued(json);
    if n == 0 {
      NoEntries(contents);
    } else {
      var before := Entries(contents, n - 1);
      var history := History(h, before, "default");
      TwoValuedHistory(json, contents, n - 1);
      ChainIsWindow(h, before, "default");
      NextTwoValued(json, contents, history, NextEntry(h, ChainOf(StateAfter(h, before), "default"), "default", contents(n - 1)));
    }
  }

  lemma NoEntries(contents: nat -> Content)
    ensures TwoValuedEntries(contents, [])
  {
  }

  lemma TwoValuedLength(json: Content -> string)
    ensures FixedLength(TwoValued(json))
  {
    hide ONES, TWOS;
    ThreeHashes();
  }

  /**
   The failing run: 10001 entries of any contents on one chain, nothing tampered with, and
   `verifyAuditChain` rejects.  A stand-in hash makes the run concrete; that it is so for SHA-256, short of
   a collision, is what `VerifiesIffNotTruncated` says of every hash.
   */
  lemma {:induction false} TruncatedChainRejected(json: Content -> string, contents: nat -> Content)
    ensures var h, run := TwoValued(json), Entries(contents, 10001);
      FixedLength(h) && !Linked(h, ChainOf(StateAfter(h, run), "default").entries, GENESIS)
  {
    hide StateAfter, History, Linked, Entries, TwoValued, FixedLength, HashEntry, ChainOf, ONES, TWOS;
    var h, run := TwoValued(json), Entries(contents, 10001);
    TwoValuedLength(json);
    ThreeHashes();
    TwoValuedHistory(json, contents, 10001);
    var history := History(h, run, "default");
    assert history[0].previousHash == ONES && history[1].content == contents(1);
    ChainIsWindow(h, run, "default");
    SuffixVerifiesIff(h, history, 1);
    TwoValuedHash(json, contents(1), ONES);
    TwoValuedHash(json, contents(1), GENESIS);
  }
}
