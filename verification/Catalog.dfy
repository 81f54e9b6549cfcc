/** The model catalog: an index over provider/model entries whose cached lists are re-sorted by lookups.
    Trimming and lower-casing of ids is the parameter `norm`. */
module Catalog {
  import opened Messages
  import opened Lex

  type Normalizer = string -> string

  datatype Entry = Entry(
    providerID: string, modelID: string, contextWindow: int, maxOutputTokens: int, sourceSHA: string)

  datatype MatchKind = ProviderModelExact | ModelExact | ModelPrefix

  datatype Response = NotFound | Found(kind: MatchKind, entry: Entry, version: string)

  /** No two entries have the same provider and model ids. */
  predicate DistinctPairs(entries: seq<Entry>) {
    forall i, j :: 0 <= i < j < |entries| ==> !SamePair(entries[i], entries[j])
  }

  predicate SamePair(a: Entry, b: Entry) { a.providerID == b.providerID && a.modelID == b.modelID }

  // ---- The orders entries are sorted in ----

  datatype Order = ByProvider | Preferred(candidates: seq<string>)

  function Rank(candidates: seq<string>, provider: string): (r: nat)
    ensures r <= |candidates| && (r < |candidates| <==> provider in candidates)
    ensures r < |candidates| ==> candidates[r] == provider
    ensures forall i :: 0 <= i < r ==> candidates[i] != provider
  {
    if candidates == [] then 0
    else if candidates[0] == provider then 0
    else 1 + Rank(candidates[1..], provider)
  }

  predicate PairLess(a: Entry, b: Entry) {
    if a.providerID != b.providerID then Less(a.providerID, b.providerID) else Less(a.modelID, b.modelID)
  }

  /** Requested providers first, in the order given; then longer model ids; then by id. */
  predicate Precedes(norm: Normalizer, o: Order, a: Entry, b: Entry) {
    match o
    case ByProvider => PairLess(a, b)
    case Preferred(candidates) =>
      var ra, rb := Rank(candidates, norm(a.providerID)), Rank(candidates, norm(b.providerID));
      if ra != rb then ra < rb
      else if |a.modelID| != |b.modelID| then |a.modelID| > |b.modelID|
      else PairLess(a, b)
  }

  lemma PairLessOrder(a: Entry, b: Entry, c: Entry)
    ensures !PairLess(a, a)
    ensures PairLess(a, b) && PairLess(b, c) ==> PairLess(a, c)
    ensures SamePair(a, b) || PairLess(a, b) || PairLess(b, a)
  {
    Irreflexive(a.modelID);
    Total(a.providerID, b.providerID);
    Total(a.modelID, b.modelID);
    if PairLess(a, b) && PairLess(b, c) {
      if a.providerID == b.providerID == c.providerID {
        Transitive(a.modelID, b.modelID, c.modelID);
      } else if a.providerID != b.providerID && b.providerID != c.providerID {
        Transitive(a.providerID, b.providerID, c.providerID);
        Irreflexive(a.providerID);
        if a.providerID == c.providerID { Asymmetric(a.providerID, b.providerID); }
      }
    }
  }

  /** Both orders are strict and total on entries with different ids. */
  lemma PrecedesOrder(norm: Normalizer, o: Order, a: Entry, b: Entry, c: Entry)
    ensures !Precedes(norm, o, a, a)
    ensures Precedes(norm, o, a, b) && Precedes(norm, o, b, c) ==> Precedes(norm, o, a, c)
    ensures SamePair(a, b) || Precedes(norm, o, a, b) || Precedes(norm, o, b, a)
  {
    PairLessOrder(a, b, c);
  }

  ghost predicate Leads(norm: Normalizer, o: Order, e: Entry, s: seq<Entry>) {
    e in s && forall x :: x in s ==> x == e || Precedes(norm, o, e, x)
  }

  lemma LeaderUnique(norm: Normalizer, o: Order, a: Entry, b: Entry, s: seq<Entry>, t: seq<Entry>)
    requires Leads(norm, o, a, s) && Leads(norm, o, b, t) && (forall x :: x in s <==> x in t)
    ensures a == b
  {
    assert b in s && a in t;
    PrecedesOrder(norm, o, a, b, a);
  }

  // ---- Plain search over the entry list ----

  predicate Indexed(norm: Normalizer, e: Entry, provider: string, model: string) {
    provider != "" && model != "" && norm(e.providerID) == provider && norm(e.modelID) == model
  }

  /** The last entry listed for a provider and model. */
  function LastMatch(norm: Normalizer, entries: seq<Entry>, provider: string, model: string): (r: Option<Entry>)
    ensures r.Some? <==> exists i :: 0 <= i < |entries| && Indexed(norm, entries[i], provider, model)
    ensures r.Some? ==> r.value in entries && Indexed(norm, r.value, provider, model)
  {
    if entries == [] then None
    else
      var last := entries[|entries| - 1];
      if Indexed(norm, last, provider, model) then Some(last)
      else
        var r := LastMatch(norm, entries[..|entries| - 1], provider, model);
        assert forall i :: 0 <= i < |entries| - 1 ==> entries[..|entries| - 1][i] == entries[i];
        r
  }

  /** The match for the first of several providers that has one. */
  function FirstHit(norm: Normalizer, entries: seq<Entry>, candidates: seq<string>, model: string): Option<Entry> {
    if candidates == [] then None
    else match LastMatch(norm, entries, candidates[0], model)
      case Some(e) => Some(e)
      case None => FirstHit(norm, entries, candidates[1..], model)
  }

  function SameModel(norm: Normalizer, entries: seq<Entry>, model: string): (s: seq<Entry>)
    ensures forall e :: e in s <==> e in entries && Indexed(norm, e, norm(e.providerID), model)
  {
    if entries == [] then []
    else
      var last, rest := entries[|entries| - 1], SameModel(norm, entries[..|entries| - 1], model);
      assert entries == entries[..|entries| - 1] + [last];
      if Indexed(norm, last, norm(last.providerID), model) then rest + [last] else rest
  }

  function WithPrefix(norm: Normalizer, entries: seq<Entry>, prefix: string): (s: seq<Entry>)
    ensures forall e :: e in s <==> e in entries && prefix <= norm(e.modelID)
  {
    if entries == [] then []
    else
      var last, rest := entries[|entries| - 1], WithPrefix(norm, entries[..|entries| - 1], prefix);
      assert entries == entries[..|entries| - 1] + [last];
      if prefix <= norm(last.modelID) then rest + [last] else rest
  }

  /** The preferred entry of a non-empty list, by going through it once. */
  function Best(norm: Normalizer, candidates: seq<string>, s: seq<Entry>): (e: Entry)
    requires s != []
    ensures e in s
  {
    if |s| == 1 then s[0]
    else
      var b, last := Best(norm, candidates, s[..|s| - 1]), s[|s| - 1];
      if Precedes(norm, Preferred(candidates), last, b) then last else b
  }

  /** The best entry with exactly this model, else the best with this prefix. */
  function Inexact(
    norm: Normalizer, entries: seq<Entry>, version: string, candidates: seq<string>, model: string): Response
  {
    var exact, prefixed := SameModel(norm, entries, model), WithPrefix(norm, entries, model);
    if exact != [] then Found(ModelExact, Best(norm, candidates, exact), version)
    else if prefixed != [] then Found(ModelPrefix, Best(norm, candidates, prefixed), version)
    else NotFound
  }

  /** Exact pair first, then the inexact matches. */
  function Search(
    norm: Normalizer, entries: seq<Entry>, version: string, candidates: seq<string>, model: string): Response
  {
    if model == "" then NotFound
    else match FirstHit(norm, entries, candidates, model)
      case Some(e) => Found(ProviderModelExact, e, version)
      case None => Inexact(norm, entries, version, candidates, model)
  }

  // ---- Which entry is preferred ----

  /** No entry of the list is of an earlier requested provider than the preferred one; among those of the same
      rank none has a longer model id; and among those it is the first by provider and model id. */
  lemma {:induction false} BestPrefers(norm: Normalizer, candidates: seq<string>, s: seq<Entry>, x: Entry)
    requires x in s
    ensures var b := Best(norm, candidates, s);
            var rb, rx := Rank(candidates, norm(b.providerID)), Rank(candidates, norm(x.providerID));
            && rb <= rx
            && (rb == rx ==> |b.modelID| >= |x.modelID|)
            && (rb == rx && |b.modelID| == |x.modelID| ==>
                && !Less(x.providerID, b.providerID)
                && (x.providerID == b.providerID ==> !Less(x.modelID, b.modelID)))
    decreases |s|
  {
    var b := Best(norm, candidates, s);
    if |s| == 1 {
      Irreflexive(x.providerID);
      Irreflexive(x.modelID);
    } else {
      var rest, last := s[..|s| - 1], s[|s| - 1];
      assert s == rest + [last];
      var b' := Best(norm, candidates, rest);
      BestPrefers(norm, candidates, rest, b');
      if x in rest { BestPrefers(norm, candidates, rest, x); }
      Irreflexive(last.providerID);
      Irreflexive(last.modelID);
      PairsChain(last, b', x);
    }
  }

  /** If a comes before b and x does not, x does not come before a. */
  lemma PairsChain(a: Entry, b: Entry, x: Entry)
    ensures PairLess(a, b) && !PairLess(x, b) ==> !PairLess(x, a)
    ensures PairLess(x, b) <==> Less(x.providerID, b.providerID) || (x.providerID == b.providerID && Less(x.modelID, b.modelID))
    ensures PairLess(x, a) <==> Less(x.providerID, a.providerID) || (x.providerID == a.providerID && Less(x.modelID, a.modelID))
    ensures PairLess(a, b) <==> Less(a.providerID, b.providerID) || (a.providerID == b.providerID && Less(a.modelID, b.modelID))
  {
    Irreflexive(x.providerID);
    Irreflexive(a.providerID);
    PairLessOrder(x, a, b);
  }

  /** So a preferred entry belongs to a requested provider whenever the list has one of a requested
      provider, and then to the earliest requested. */
  lemma BestIsRequested(norm: Normalizer, candidates: seq<string>, s: seq<Entry>, x: Entry)
    requires x in s && norm(x.providerID) in candidates
    ensures var p := norm(Best(norm, candidates, s).providerID);
            && p in candidates
            && forall i :: 0 <= i < Rank(candidates, p) ==> candidates[i] != norm(x.providerID)
  {
    BestPrefers(norm, candidates, s, x);
  }

  // ---- Which answer a search gives ----

  lemma {:induction false} LastMatchIsLast(norm: Normalizer, entries: seq<Entry>, provider: string, model: string)
    requires LastMatch(norm, entries, provider, model).Some?
    ensures exists i :: 0 <= i < |entries| && entries[i] == LastMatch(norm, entries, provider, model).value
                        && forall j :: i < j < |entries| ==> !Indexed(norm, entries[j], provider, model)
    decreases |entries|
  {
    var n := |entries| - 1;
    if Indexed(norm, entries[n], provider, model) {
      assert entries[n] == LastMatch(norm, entries, provider, model).value;
    } else {
      LastMatchIsLast(norm, entries[..n], provider, model);
      var i :| 0 <= i < n && entries[..n][i] == LastMatch(norm, entries, provider, model).value
               && forall j :: i < j < n ==> !Indexed(norm, entries[..n][j], provider, model);
      assert entries[i] == LastMatch(norm, entries, provider, model).value;
      forall j | i < j < |entries| ensures !Indexed(norm, entries[j], provider, model) {
        if j < n { assert entries[..n][j] == entries[j]; }
      }
    }
  }

  lemma {:induction false} FirstHitIs(norm: Normalizer, entries: seq<Entry>, candidates: seq<string>, model: string)
    ensures match FirstHit(norm, entries, candidates, model)
            case None => forall c :: c in candidates ==> LastMatch(norm, entries, c, model).None?
            case Some(e) => exists k :: 0 <= k < |candidates| && LastMatch(norm, entries, candidates[k], model) == Some(e)
                                        && forall i :: 0 <= i < k ==> LastMatch(norm, entries, candidates[i], model).None?
    decreases |candidates|
  {
    if candidates != [] && LastMatch(norm, entries, candidates[0], model).None? {
      var rest := candidates[1..];
      FirstHitIs(norm, entries, rest, model);
      match FirstHit(norm, entries, rest, model)
      case None =>
      case Some(e) =>
        var k :| 0 <= k < |rest| && LastMatch(norm, entries, rest[k], model) == Some(e)
                 && forall i :: 0 <= i < k ==> LastMatch(norm, entries, rest[i], model).None?;
        assert LastMatch(norm, entries, candidates[k + 1], model) == Some(e);
        forall i | 0 <= i < k + 1 ensures LastMatch(norm, entries, candidates[i], model).None? {
          if i > 0 { assert rest[i - 1] == candidates[i]; }
        }
    }
  }

  predicate HasPair(norm: Normalizer, entries: seq<Entry>, provider: string, model: string) {
    exists i :: 0 <= i < |entries| && Indexed(norm, entries[i], provider, model)
  }

  predicate HasModel(norm: Normalizer, entries: seq<Entry>, model: string) {
    exists i :: 0 <= i < |entries| && Indexed(norm, entries[i], norm(entries[i].providerID), model)
  }

  predicate HasPrefix(norm: Normalizer, entries: seq<Entry>, prefix: string) {
    exists i :: 0 <= i < |entries| && prefix <= norm(entries[i].modelID)
  }

  /** The kind of answer, exactly: an exact pair if the list has one for a requested provider; else an exact
      model if it has that; else a prefix; and none for an empty model or when nothing fits. The answer is
      an entry of the list that fits the kind, under the version served. */
  lemma SearchAnswers(norm: Normalizer, entries: seq<Entry>, version: string, candidates: seq<string>, model: string)
    requires "" !in candidates
    ensures var r := Search(norm, entries, version, candidates, model);
            var pair := HasSomePair(norm, entries, candidates, model);
            && (r.Found? ==> r.version == version && r.entry in entries && model != "")
            && (r.Found? && r.kind == ProviderModelExact <==> pair)
            && (r.Found? && r.kind == ModelExact <==> !pair && HasModel(norm, entries, model))
            && (r.Found? && r.kind == ModelPrefix <==>
                !pair && model != "" && !HasModel(norm, entries, model) && HasPrefix(norm, entries, model))
            && (r.Found? && r.kind == ProviderModelExact ==>
                norm(r.entry.modelID) == model && norm(r.entry.providerID) in candidates)
            && (r.Found? && r.kind == ModelExact ==> norm(r.entry.modelID) == model)
            && (r.Found? && r.kind == ModelPrefix ==> model <= norm(r.entry.modelID))
  {
    SomePairIff(norm, entries, candidates, model);
    FirstHitIs(norm, entries, candidates, model);
    if model != "" { InexactLists(norm, entries, model); }
  }

  predicate HasSomePair(norm: Normalizer, entries: seq<Entry>, candidates: seq<string>, model: string) {
    exists k :: 0 <= k < |candidates| && HasPair(norm, entries, candidates[k], model)
  }

  lemma SomePairIff(norm: Normalizer, entries: seq<Entry>, candidates: seq<string>, model: string)
    ensures HasSomePair(norm, entries, candidates, model) <==> FirstHit(norm, entries, candidates, model).Some?
    ensures model == "" ==> !HasSomePair(norm, entries, candidates, model)
  {
    FirstHitIs(norm, entries, candidates, model);
    forall k | 0 <= k < |candidates|
      ensures HasPair(norm, entries, candidates[k], model) <==> LastMatch(norm, entries, candidates[k], model).Some?
    {
    }
  }

  lemma InexactLists(norm: Normalizer, entries: seq<Entry>, model: string)
    ensures SameModel(norm, entries, model) != [] <==> HasModel(norm, entries, model)
    ensures WithPrefix(norm, entries, model) != [] <==> HasPrefix(norm, entries, model)
  {
    var s, w := SameModel(norm, entries, model), WithPrefix(norm, entries, model);
    if s != [] {
      assert s[0] in s;
      var i :| 0 <= i < |entries| && entries[i] == s[0];
    }
    if HasModel(norm, entries, model) {
      var i :| 0 <= i < |entries| && Indexed(norm, entries[i], norm(entries[i].providerID), model);
      assert entries[i] in s;
    }
    if w != [] {
      assert w[0] in w;
      var i :| 0 <= i < |entries| && entries[i] == w[0];
    }
    if HasPrefix(norm, entries, model) {
      var i :| 0 <= i < |entries| && model <= norm(entries[i].modelID);
      assert entries[i] in w;
    }
  }

  /** An exact pair is of the first requested provider that has one, and the last listed for it. */
  lemma PairAnswerIsFirst(norm: Normalizer, entries: seq<Entry>, version: string, candidates: seq<string>, model: string)
    requires Search(norm, entries, version, candidates, model).Found?
    requires Search(norm, entries, version, candidates, model).kind == ProviderModelExact
    ensures exists k :: 0 <= k < |candidates| && HasPair(norm, entries, candidates[k], model)
                        && LastMatch(norm, entries, candidates[k], model) == Some(Search(norm, entries, version, candidates, model).entry)
                        && forall i :: 0 <= i < k ==> !HasPair(norm, entries, candidates[i], model)
  {
    FirstHitIs(norm, entries, candidates, model);
  }

  /** An inexact answer is of a requested provider whenever a requested provider has an entry that fits. */
  lemma InexactAnswerRequested(
    norm: Normalizer, entries: seq<Entry>, version: string, candidates: seq<string>, model: string, x: Entry)
    requires "" !in candidates
    requires Search(norm, entries, version, candidates, model).Found?
    requires Search(norm, entries, version, candidates, model).kind == ModelPrefix
    requires x in entries && norm(x.providerID) in candidates && model <= norm(x.modelID)
    ensures norm(Search(norm, entries, version, candidates, model).entry.providerID) in candidates
  {
    assert x in WithPrefix(norm, entries, model);
    BestIsRequested(norm, candidates, WithPrefix(norm, entries, model), x);
  }

  /** An inexact answer is preferred to every other entry that fits: an earlier requested provider, then the
      longer model id, then the first by provider and model id. */
  lemma InexactAnswerPreferred(
    norm: Normalizer, entries: seq<Entry>, version: string, candidates: seq<string>, model: string, x: Entry)
    requires Search(norm, entries, version, candidates, model).Found?
    requires Search(norm, entries, version, candidates, model).kind != ProviderModelExact
    requires x in entries
    requires if Search(norm, entries, version, candidates, model).kind == ModelExact
             then Indexed(norm, x, norm(x.providerID), model) else model <= norm(x.modelID)
    ensures var b := Search(norm, entries, version, candidates, model).entry;
            var rb, rx := Rank(candidates, norm(b.providerID)), Rank(candidates, norm(x.providerID));
            && rb <= rx
            && (rb == rx ==> |b.modelID| >= |x.modelID|)
            && (rb == rx && |b.modelID| == |x.modelID| ==>
                && !Less(x.providerID, b.providerID)
                && (x.providerID == b.providerID ==> !Less(x.modelID, b.modelID)))
  {
    if Search(norm, entries, version, candidates, model).kind == ModelExact {
      assert x in SameModel(norm, entries, model);
      BestPrefers(norm, candidates, SameModel(norm, entries, model), x);
    } else {
      assert x in WithPrefix(norm, entries, model);
      BestPrefers(norm, candidates, WithPrefix(norm, entries, model), x);
    }
  }

  predicate Sublist(s: seq<Entry>, entries: seq<Entry>) {
    (forall e :: e in s ==> e in entries) && DistinctPairs(entries)
  }

  lemma {:induction false} BestLeads(norm: Normalizer, candidates: seq<string>, s: seq<Entry>, entries: seq<Entry>)
    requires s != [] && Sublist(s, entries)
    ensures Leads(norm, Preferred(candidates), Best(norm, candidates, s), s)
    decreases |s|
  {
    var o, best := Preferred(candidates), Best(norm, candidates, s);
    if |s| > 1 {
      var rest, last := s[..|s| - 1], s[|s| - 1];
      assert s == rest + [last];
      BestLeads(norm, candidates, rest, entries);
      var b := Best(norm, candidates, rest);
      forall x | x in s ensures x == best || Precedes(norm, o, best, x) {
        PrecedesOrder(norm, o, last, b, x);
        PrecedesOrder(norm, o, b, last, x);
        if SamePair(b, last) { PairIdentifies(b, last, entries); }
      }
    }
  }

  lemma PairIdentifies(a: Entry, b: Entry, entries: seq<Entry>)
    requires a in entries && b in entries && DistinctPairs(entries) && SamePair(a, b)
    ensures a == b
  {
    var i :| 0 <= i < |entries| && entries[i] == a;
    var j :| 0 <= j < |entries| && entries[j] == b;
    assert i == j;
  }

  /** An exact-model answer never belongs to a requested provider: that would have been an exact pair. */
  lemma ExactAnswerIsForeign(
    norm: Normalizer, entries: seq<Entry>, version: string, candidates: seq<string>, model: string)
    requires Search(norm, entries, version, candidates, model).Found?
    requires Search(norm, entries, version, candidates, model).kind == ModelExact
    ensures norm(Search(norm, entries, version, candidates, model).entry.providerID) !in candidates
  {
    var e := Search(norm, entries, version, candidates, model).entry;
    var i :| 0 <= i < |entries| && entries[i] == e;
    if norm(e.providerID) in candidates {
      HitExists(norm, entries, candidates, model, norm(e.providerID));
    }
  }

  lemma {:induction false} HitExists(
    norm: Normalizer, entries: seq<Entry>, candidates: seq<string>, model: string, provider: string)
    requires provider in candidates && LastMatch(norm, entries, provider, model).Some?
    ensures FirstHit(norm, entries, candidates, model).Some?
    decreases |candidates|
  {
    if candidates[0] != provider {
      HitExists(norm, entries, candidates[1..], model, provider);
    }
  }

  // ---- The index ----

  function PairKey(provider: string, model: string): string { provider + ['\0'] + model }

  predicate NulFree(s: string) { '\0' !in s }

  /** In a key with a NUL-free provider part, the first NUL is the separator. */
  lemma SeparatorFirst(p: string, m: string)
    requires NulFree(p)
    ensures PairKey(p, m)[|p|] == '\0' && PairKey(p, m)[..|p|] == p && PairKey(p, m)[|p| + 1..] == m
    ensures forall i :: 0 <= i < |p| ==> PairKey(p, m)[i] != '\0'
  {
  }

  lemma PairKeyInjective(p: string, m: string, q: string, n: string)
    requires NulFree(p) && NulFree(q) && PairKey(p, m) == PairKey(q, n)
    ensures p == q && m == n
  {
    SeparatorFirst(p, m);
    SeparatorFirst(q, n);
    assert |p| == |q|;
  }

  function PairIndex(norm: Normalizer, entries: seq<Entry>): map<string, Entry> {
    if entries == [] then map[]
    else
      var last, rest := entries[|entries| - 1], PairIndex(norm, entries[..|entries| - 1]);
      if norm(last.providerID) == "" || norm(last.modelID) == "" then rest
      else rest[PairKey(norm(last.providerID), norm(last.modelID)) := last]
  }

  predicate NulFreeProviders(norm: Normalizer, entries: seq<Entry>) {
    forall i :: 0 <= i < |entries| ==> NulFree(norm(entries[i].providerID))
  }

  function Lookup(norm: Normalizer, entries: seq<Entry>, provider: string, model: string): Option<Entry> {
    var index, key := PairIndex(norm, entries), PairKey(provider, model);
    if key in index then Some(index[key]) else None
  }

  function FirstNul(s: string): (i: nat)
    ensures i <= |s| && NulFree(s[..i]) && (i < |s| ==> s[i] == '\0')
  {
    if s == "" || s[0] == '\0' then 0
    else
      var i := FirstNul(s[1..]);
      assert s[..i + 1] == [s[0]] + s[1..][..i];
      i + 1
  }

  ghost predicate Image(norm: Normalizer, s: string) { exists x :: norm(x) == s }

  /** No other pair with a NUL-free provider has the request's key: the provider has no NUL, or begins
      with one, or no entry can have its two halves as ids. */
  ghost predicate Unambiguous(norm: Normalizer, provider: string, model: string) {
    var i := FirstNul(provider);
    || i == |provider| || i == 0
    || !Image(norm, provider[..i]) || !Image(norm, provider[i + 1..] + ['\0'] + model)
  }

  /** Trimming and lower-casing twice is doing it once, so a caller can check the last two conditions. */
  lemma ImageIffFixed(norm: Normalizer, s: string)
    requires forall x :: norm(norm(x)) == norm(x)
    ensures Image(norm, s) <==> norm(s) == s
  {
    if Image(norm, s) {
      var x :| norm(x) == s;
      assert norm(norm(x)) == norm(x);
    }
  }

  /** The only pair with a NUL-free provider and the same key splits the request at its first NUL. */
  lemma SameKeySplits(p: string, m: string, provider: string, model: string)
    requires NulFree(p) && PairKey(p, m) == PairKey(provider, model)
    ensures var i := FirstNul(provider);
            if i == |provider| then p == provider && m == model
            else p == provider[..i] && m == provider[i + 1..] + ['\0'] + model
  {
    var i := FirstNul(provider);
    var key := PairKey(provider, model);
    SeparatorFirst(p, m);
    if i == |provider| {
      assert provider[..i] == provider;
      PairKeyInjective(p, m, provider, model);
    } else {
      SplitKey(provider, model, i);
      PairKeyInjective(p, m, provider[..i], provider[i + 1..] + ['\0'] + model);
    }
  }

  lemma SplitKey(provider: string, model: string, i: nat)
    requires i < |provider| && provider[i] == '\0'
    ensures PairKey(provider[..i], provider[i + 1..] + ['\0'] + model) == PairKey(provider, model)
  {
    assert provider == provider[..i] + ['\0'] + provider[i + 1..];
  }

  /** With NUL-free provider ids, the lookup of an unambiguous request finds exactly the last entry
      listed for the pair. */
  lemma {:induction false} IndexLookup(norm: Normalizer, entries: seq<Entry>, provider: string, model: string)
    requires NulFreeProviders(norm, entries) && Unambiguous(norm, provider, model) && provider != "" && model != ""
    ensures LastMatch(norm, entries, provider, model) == Lookup(norm, entries, provider, model)
    decreases |entries|
  {
    if entries != [] {
      var last := entries[|entries| - 1];
      IndexLookup(norm, entries[..|entries| - 1], provider, model);
      var p, m := norm(last.providerID), norm(last.modelID);
      if PairKey(p, m) == PairKey(provider, model) && p != "" {
        SameKeySplits(p, m, provider, model);
        assert Image(norm, p) && Image(norm, m);
      }
    }
  }

  /** The entry whose key an ambiguous request hits. */
  lemma CollidingEntry(norm: Normalizer, provider: string, model: string) returns (e: Entry)
    requires !Unambiguous(norm, provider, model)
    ensures NulFreeProviders(norm, [e]) && norm(e.providerID) != provider && norm(e.modelID) != model
    ensures Lookup(norm, [e], provider, model) == Some(e)
  {
    var i := FirstNul(provider);
    var rest := provider[i + 1..] + ['\0'] + model;
    var p :| norm(p) == provider[..i];
    var m :| norm(m) == rest;
    e := Entry(p, m, 0, 0, "");
    SplitKey(provider, model, i);
    assert |provider[..i]| < |provider| && |rest| > |model|;
    assert [e][..0] == [];
  }

  /** The index agrees with the list, for every catalog with NUL-free provider ids, exactly when the
      request is unambiguous. */
  lemma LookupExactIff(norm: Normalizer, provider: string, model: string)
    requires provider != "" && model != ""
    ensures (forall entries :: NulFreeProviders(norm, entries) ==>
               LastMatch(norm, entries, provider, model) == Lookup(norm, entries, provider, model))
            <==> Unambiguous(norm, provider, model)
  {
    if Unambiguous(norm, provider, model) {
      forall entries | NulFreeProviders(norm, entries)
        ensures LastMatch(norm, entries, provider, model) == Lookup(norm, entries, provider, model)
      {
        IndexLookup(norm, entries, provider, model);
      }
    } else {
      var e := CollidingEntry(norm, provider, model);
      assert LastMatch(norm, [e], provider, model) == None;
    }
  }

  // ---- What the indexed lookup answers ----

  function IndexedHit(norm: Normalizer, entries: seq<Entry>, candidates: seq<string>, model: string): Option<Entry> {
    if candidates == [] then None
    else match Lookup(norm, entries, candidates[0], model)
      case Some(e) => Some(e)
      case None => IndexedHit(norm, entries, candidates[1..], model)
  }

  /** The search with its exact pairs taken from the index. */
  function Answer(
    norm: Normalizer, entries: seq<Entry>, version: string, candidates: seq<string>, model: string): Response
  {
    if model == "" then NotFound
    else match IndexedHit(norm, entries, candidates, model)
      case Some(e) => Found(ProviderModelExact, e, version)
      case None => Inexact(norm, entries, version, candidates, model)
  }

  lemma {:induction false} HitsAgree(norm: Normalizer, entries: seq<Entry>, candidates: seq<string>, model: string)
    requires NulFreeProviders(norm, entries) && model != "" && "" !in candidates
    requires forall c :: c in candidates ==> Unambiguous(norm, c, model)
    ensures IndexedHit(norm, entries, candidates, model) == FirstHit(norm, entries, candidates, model)
    decreases |candidates|
  {
    if candidates != [] {
      IndexLookup(norm, entries, candidates[0], model);
      HitsAgree(norm, entries, candidates[1..], model);
    }
  }

  /** A single entry whose key some candidate has is hit. */
  lemma {:induction false} SomeHit(norm: Normalizer, e: Entry, candidates: seq<string>, model: string, c: string)
    requires c in candidates && Lookup(norm, [e], c, model) == Some(e)
    ensures IndexedHit(norm, [e], candidates, model) == Some(e)
    decreases |candidates|
  {
    assert [e][..0] == [] && PairIndex(norm, []) == map[];
    if Lookup(norm, [e], candidates[0], model).None? {
      SomeHit(norm, e, candidates[1..], model, c);
    }
  }

  lemma {:induction false} NoHit(norm: Normalizer, e: Entry, candidates: seq<string>, model: string)
    requires norm(e.modelID) != model
    ensures FirstHit(norm, [e], candidates, model).None?
    decreases |candidates|
  {
    if candidates != [] { NoHit(norm, e, candidates[1..], model); }
  }

  /** The answer to a request is the plain search's, for every catalog with distinct pairs and NUL-free
      provider ids, exactly when every requested provider is unambiguous. */
  lemma AnswerExactIff(norm: Normalizer, version: string, candidates: seq<string>, model: string)
    requires model != "" && "" !in candidates
    ensures (forall entries :: NulFreeProviders(norm, entries) && DistinctPairs(entries) ==>
               Answer(norm, entries, version, candidates, model) == Search(norm, entries, version, candidates, model))
            <==> forall c :: c in candidates ==> Unambiguous(norm, c, model)
  {
    if forall c :: c in candidates ==> Unambiguous(norm, c, model) {
      forall entries | NulFreeProviders(norm, entries) && DistinctPairs(entries)
        ensures Answer(norm, entries, version, candidates, model) == Search(norm, entries, version, candidates, model)
      {
        HitsAgree(norm, entries, candidates, model);
      }
    } else {
      var c :| c in candidates && !Unambiguous(norm, c, model);
      var e := CollidingEntry(norm, c, model);
      SomeHit(norm, e, candidates, model, c);
      NoHit(norm, e, candidates, model);
      assert DistinctPairs([e]);
      assert Answer(norm, [e], version, candidates, model) != Search(norm, [e], version, candidates, model);
    }
  }

  lemma {:induction false} KeyIndexed(norm: Normalizer, entries: seq<Entry>, e: Entry)
    requires e in entries && norm(e.providerID) != "" && norm(e.modelID) != ""
    ensures Lookup(norm, entries, norm(e.providerID), norm(e.modelID)).Some?
    decreases |entries|
  {
    var last := entries[|entries| - 1];
    assert entries == entries[..|entries| - 1] + [last];
    if e != last { KeyIndexed(norm, entries[..|entries| - 1], e); }
  }

  lemma {:induction false} IndexedHitExists(
    norm: Normalizer, entries: seq<Entry>, candidates: seq<string>, model: string, provider: string)
    requires provider in candidates && Lookup(norm, entries, provider, model).Some?
    ensures IndexedHit(norm, entries, candidates, model).Some?
    decreases |candidates|
  {
    if candidates[0] != provider {
      IndexedHitExists(norm, entries, candidates[1..], model, provider);
    }
  }

  /** Even for ambiguous requests, an exact-model answer never belongs to a requested provider. */
  lemma IndexedAnswerIsForeign(
    norm: Normalizer, entries: seq<Entry>, version: string, candidates: seq<string>, model: string)
    requires "" !in candidates
    requires Answer(norm, entries, version, candidates, model).Found?
    requires Answer(norm, entries, version, candidates, model).kind == ModelExact
    ensures norm(Answer(norm, entries, version, candidates, model).entry.providerID) !in candidates
  {
    var e := Answer(norm, entries, version, candidates, model).entry;
    if norm(e.providerID) in candidates {
      KeyIndexed(norm, entries, e);
      IndexedHitExists(norm, entries, candidates, model, norm(e.providerID));
    }
  }

  /** Such a request: provider "a\0b" and model "c" are answered with the entry of provider "a" and
      model "b\0c" as an exact pair, where the search finds nothing. */
  lemma NulRequestMisfires(e: Entry, version: string)
    requires e.providerID == "a" && e.modelID == "b\0c"
    ensures Answer((s: string) => s, [e], version, ["a\0b"], "c") == Found(ProviderModelExact, e, version)
    ensures Search((s: string) => s, [e], version, ["a\0b"], "c") == NotFound
  {
    var norm := (s: string) => s;
    assert PairKey("a", "b\0c") == "a\0b\0c" == PairKey("a\0b", "c");
    assert [e][..0] == [];
    assert Lookup(norm, [e], "a\0b", "c") == Some(e);
    SomeHit(norm, e, ["a\0b"], "c", "a\0b");
    NoHit(norm, e, ["a\0b"], "c");
    assert norm(e.modelID)[0] == 'b';
    assert SameModel(norm, [e], "c") == [];
    assert WithPrefix(norm, [], "c") == [] && WithPrefix(norm, [e], "c") == [];
  }

  // ---- Provider aliases ----

  const ALIASES: map<string, seq<string>> := map[
    "zai" := ["zai", "zhipu-coding"], "zhipu" := ["zhipu"], "anthropic" := ["anthropic"], "openai" := ["openai"],
    "google" := ["gemini"], "openrouter" := ["openrouter"], "groq" := ["groq"], "mistral" := ["mistral"],
    "deepseek" := ["deepseek"], "moonshot" := ["moonshot", "kimi"], "kimi" := ["kimi"],
    "minimax" := ["minimax", "minimax-china"], "github-copilot" := ["copilot"], "xai" := ["xai"],
    "aliyun" := ["aliyun"], "xiaomi-mimo" := ["xiaomi-mimo"]]

  /** The non-empty normalised items, each at its first occurrence. */
  function Unrepeated(norm: Normalizer, items: seq<string>): (out: seq<string>)
    ensures "" !in out
    ensures forall i, j :: 0 <= i < j < |out| ==> out[i] != out[j]
    ensures forall x :: x in out <==> x != "" && exists i :: 0 <= i < |items| && norm(items[i]) == x
  {
    if items == [] then []
    else
      var before := Unrepeated(norm, items[..|items| - 1]);
      var last := norm(items[|items| - 1]);
      assert forall i :: 0 <= i < |items| - 1 ==> items[..|items| - 1][i] == items[i];
      if last == "" || last in before then before else before + [last]
  }

  function Candidates(norm: Normalizer, providerID: string): seq<string> {
    var provider := norm(providerID);
    if provider == "" then []
    else Unrepeated(norm, [provider] + (if provider in ALIASES then ALIASES[provider] else []))
  }

  /** A non-empty provider is its own first candidate. */
  lemma {:induction false} StartsWith(norm: Normalizer, items: seq<string>)
    requires items != [] && norm(items[0]) != ""
    ensures Unrepeated(norm, items) != [] && Unrepeated(norm, items)[0] == norm(items[0])
    decreases |items|
  {
    if |items| == 1 {
      assert items[..0] == [];
    } else {
      StartsWith(norm, items[..|items| - 1]);
    }
  }

  predicate NormalOf(norm: Normalizer, items: seq<string>, c: string) {
    exists i :: 0 <= i < |items| && norm(items[i]) == c
  }

  function Aliases(provider: string): seq<string> { if provider in ALIASES then ALIASES[provider] else [] }

  /** A requested provider is tried first, and the others tried are exactly its aliases. */
  lemma CandidatesStartWithProvider(norm: Normalizer, providerID: string)
    requires norm(norm(providerID)) == norm(providerID) != ""
    ensures Candidates(norm, providerID) != [] && Candidates(norm, providerID)[0] == norm(providerID)
    ensures forall c :: c in Candidates(norm, providerID) <==>
              c != "" && (c == norm(providerID) || NormalOf(norm, Aliases(norm(providerID)), c))
  {
    var p := norm(providerID);
    var items := [p] + Aliases(p);
    StartsWith(norm, items);
    forall c ensures NormalOf(norm, items, c) <==> c == p || NormalOf(norm, Aliases(p), c) {
      ConsNormal(norm, p, Aliases(p), c);
    }
  }

  lemma ConsNormal(norm: Normalizer, p: string, rest: seq<string>, c: string)
    ensures NormalOf(norm, [p] + rest, c) <==> norm(p) == c || NormalOf(norm, rest, c)
  {
    var items := [p] + rest;
    if NormalOf(norm, rest, c) {
      var i :| 0 <= i < |rest| && norm(rest[i]) == c;
      assert items[i + 1] == rest[i];
    }
    if norm(p) == c { assert items[0] == p; }
    if NormalOf(norm, items, c) && norm(p) != c {
      var i :| 0 <= i < |items| && norm(items[i]) == c;
      assert rest[i - 1] == items[i];
    }
  }

  method ProviderMatchCandidates(norm: Normalizer, providerID: string) returns (out: seq<string>)
    ensures out == Candidates(norm, providerID)
    ensures "" !in out && forall i, j :: 0 <= i < j < |out| ==> out[i] != out[j]
  {
    var provider := norm(providerID);
    if provider == "" {
      return [];
    }
    var list := [provider];
    if provider in ALIASES {
      list := list + ALIASES[provider];
    }
    var seen: set<string> := {};
    out := [];
    for i := 0 to |list|
      invariant out == Unrepeated(norm, list[..i])
      invariant forall x :: x in seen <==> x in out
    {
      assert list[..i + 1][..i] == list[..i];
      var normalized := norm(list[i]);
      if normalized == "" || normalized in seen {
        continue;
      }
      seen := seen + {normalized};
      out := out + [normalized];
    }
    assert list[..|list|] == list;
    assert list == [provider] + (if provider in ALIASES then ALIASES[provider] else []);
  }

  // ---- Sorting ----

  predicate SortedBy(norm: Normalizer, o: Order, s: seq<Entry>) {
    forall i, j :: 0 <= i < j < |s| ==> !Precedes(norm, o, s[j], s[i])
  }

  method Insert(norm: Normalizer, o: Order, s: seq<Entry>, e: Entry) returns (r: seq<Entry>)
    requires SortedBy(norm, o, s)
    ensures SortedBy(norm, o, r) && multiset(r) == multiset(s) + multiset{e}
  {
    var k := |s|;
    while k > 0 && Precedes(norm, o, e, s[k - 1])
      invariant 0 <= k <= |s|
      invariant forall i :: k <= i < |s| ==> Precedes(norm, o, e, s[i])
    {
      k := k - 1;
    }
    r := s[..k] + [e] + s[k..];
    assert s == s[..k] + s[k..];
    InsertKeepsSorted(norm, o, s, e, k);
  }

  lemma NotBeforeLeft(norm: Normalizer, o: Order, s: seq<Entry>, e: Entry, k: nat, i: nat)
    requires SortedBy(norm, o, s) && i < k <= |s| && !Precedes(norm, o, e, s[k - 1])
    ensures !Precedes(norm, o, e, s[i])
  {
    if i < k - 1 && Precedes(norm, o, e, s[i]) {
      PlaceHolds(norm, o, s, e, i, k - 1);
    }
  }

  lemma NotAfterRight(norm: Normalizer, o: Order, e: Entry, x: Entry)
    requires Precedes(norm, o, e, x)
    ensures !Precedes(norm, o, x, e)
  {
    PrecedesOrder(norm, o, e, x, e);
  }

  /** Where the elements of a list with one inserted come from. */
  lemma InsertedAt(s: seq<Entry>, e: Entry, k: nat, i: nat)
    requires k <= |s| && i <= |s|
    ensures (s[..k] + [e] + s[k..])[i] == if i < k then s[i] else if i == k then e else s[i - 1]
  {
  }

  lemma InsertKeepsSorted(norm: Normalizer, o: Order, s: seq<Entry>, e: Entry, k: nat)
    requires SortedBy(norm, o, s) && k <= |s|
    requires k > 0 ==> !Precedes(norm, o, e, s[k - 1])
    requires forall i :: k <= i < |s| ==> Precedes(norm, o, e, s[i])
    ensures SortedBy(norm, o, s[..k] + [e] + s[k..])
  {
    var r := s[..k] + [e] + s[k..];
    forall i, j | 0 <= i < j < |r| ensures !Precedes(norm, o, r[j], r[i]) {
      InsertedAt(s, e, k, i);
      InsertedAt(s, e, k, j);
      if j == k {
        NotBeforeLeft(norm, o, s, e, k, i);
      } else if i == k {
        NotAfterRight(norm, o, e, s[j - 1]);
      }
    }
  }

  /** If e precedes an element of a sorted list, it precedes every later one too. */
  lemma PlaceHolds(norm: Normalizer, o: Order, s: seq<Entry>, e: Entry, i: nat, j: nat)
    requires SortedBy(norm, o, s) && i < j < |s| && Precedes(norm, o, e, s[i])
    ensures Precedes(norm, o, e, s[j])
  {
    PrecedesOrder(norm, o, s[i], s[j], e);
    PrecedesOrder(norm, o, e, s[i], s[j]);
    NotLess(norm, o, e, s[i], s[j]);
  }

  /** Entries with the same ids are equivalent in both orders. */
  lemma NotLess(norm: Normalizer, o: Order, e: Entry, a: Entry, b: Entry)
    requires Precedes(norm, o, e, a) && !Precedes(norm, o, b, a)
    ensures Precedes(norm, o, e, b)
  {
    PrecedesOrder(norm, o, a, b, a);
    PrecedesOrder(norm, o, e, a, b);
  }

  method SortEntries(norm: Normalizer, o: Order, s: seq<Entry>) returns (r: seq<Entry>)
    ensures SortedBy(norm, o, r) && multiset(r) == multiset(s)
  {
    r := [];
    for i := 0 to |s|
      invariant SortedBy(norm, o, r) && multiset(r) == multiset(s[..i])
    {
      assert s[..i + 1] == s[..i] + [s[i]];
      r := Insert(norm, o, r, s[i]);
    }
    assert s[..|s|] == s;
  }

  lemma SortedHeadLeads(norm: Normalizer, o: Order, sorted: seq<Entry>, entries: seq<Entry>)
    requires sorted != [] && SortedBy(norm, o, sorted) && Sublist(sorted, entries)
    ensures Leads(norm, o, sorted[0], sorted)
  {
    forall x | x in sorted ensures x == sorted[0] || Precedes(norm, o, sorted[0], x) {
      var i :| 0 <= i < |sorted| && sorted[i] == x;
      PrecedesOrder(norm, o, sorted[0], x, x);
      if SamePair(sorted[0], x) { PairIdentifies(sorted[0], x, entries); }
    }
  }

  lemma SameMembers(s: seq<Entry>, t: seq<Entry>)
    requires multiset(s) == multiset(t)
    ensures forall x :: x in s <==> x in t
    ensures s != [] <==> t != []
  {
    assert forall x :: x in s <==> x in multiset(s);
    assert forall x :: x in t <==> x in multiset(t);
    assert |multiset(s)| == |s| && |multiset(t)| == |t|;
  }

  /** The head of any sorting of a list is the entry a single pass prefers. */
  lemma SortedHeadIsBest(
    norm: Normalizer, candidates: seq<string>, s: seq<Entry>, sorted: seq<Entry>, entries: seq<Entry>)
    requires s != [] && Sublist(s, entries)
    requires SortedBy(norm, Preferred(candidates), sorted) && multiset(sorted) == multiset(s)
    ensures sorted != [] && sorted[0] == Best(norm, candidates, s)
  {
    SameMembers(sorted, s);
    SortedHeadLeads(norm, Preferred(candidates), sorted, entries);
    BestLeads(norm, candidates, s, entries);
    LeaderUnique(norm, Preferred(candidates), sorted[0], Best(norm, candidates, s), sorted, s);
  }

  // ---- The snapshot as the program keeps it ----

  predicate Appendable(norm: Normalizer, e: Entry) { norm(e.providerID) != "" && norm(e.modelID) != "" }

  /** A model's cached list holds exactly the entries with that model, in some order. */
  ghost predicate Bucket(norm: Normalizer, entries: seq<Entry>, exact: map<string, seq<Entry>>, model: string) {
    && (model in exact <==> SameModel(norm, entries, model) != [])
    && (model in exact ==> multiset(exact[model]) == multiset(SameModel(norm, entries, model)))
  }

  ghost predicate Buckets(norm: Normalizer, entries: seq<Entry>, exact: map<string, seq<Entry>>) {
    forall model: string :: Bucket(norm, entries, exact, model)
  }

  function Bucketed(norm: Normalizer, exact: map<string, seq<Entry>>, e: Entry): map<string, seq<Entry>> {
    var key := norm(e.modelID);
    if Appendable(norm, e) then exact[key := (if key in exact then exact[key] else []) + [e]] else exact
  }

  lemma SameModelStep(norm: Normalizer, entries: seq<Entry>, e: Entry, model: string)
    ensures SameModel(norm, entries + [e], model) ==
            SameModel(norm, entries, model) + (if Appendable(norm, e) && model == norm(e.modelID) then [e] else [])
  {
    assert (entries + [e])[..|entries|] == entries;
  }

  lemma BucketsStep(norm: Normalizer, entries: seq<Entry>, e: Entry, exact: map<string, seq<Entry>>)
    requires Buckets(norm, entries, exact)
    ensures Buckets(norm, entries + [e], Bucketed(norm, exact, e))
  {
    forall model: string ensures Bucket(norm, entries + [e], Bucketed(norm, exact, e), model) {
      SameModelStep(norm, entries, e, model);
      assert Bucket(norm, entries, exact, model);
    }
  }

  lemma BucketsReorder(
    norm: Normalizer, entries: seq<Entry>, exact: map<string, seq<Entry>>, key: string, sorted: seq<Entry>)
    requires Buckets(norm, entries, exact) && key in exact && multiset(sorted) == multiset(exact[key])
    ensures Buckets(norm, entries, exact[key := sorted])
  {
    var exact' := exact[key := sorted];
    forall model: string ensures Bucket(norm, entries, exact', model) {
      assert Bucket(norm, entries, exact, model);
    }
  }

  class Snapshot {
    const norm: Normalizer
    const version: string
    const entries: seq<Entry>
    var providerModel: map<string, Entry>
    var modelExact: map<string, seq<Entry>>

    ghost predicate Valid()
      reads this
    {
      providerModel == PairIndex(norm, entries) && Buckets(norm, entries, modelExact)
    }

    constructor (norm: Normalizer, version: string, entries: seq<Entry>)
      ensures Valid() && this.norm == norm && this.version == version && this.entries == entries
    {
      this.norm, this.version, this.entries := norm, version, entries;
      providerModel, modelExact := map[], map[];
      new;
      BuildIndex();
      SortBuckets();
    }

    method BuildIndex()
      requires providerModel == map[] && modelExact == map[]
      modifies this
      ensures Valid()
    {
      for i := 0 to |entries|
        invariant providerModel == PairIndex(norm, entries[..i])
        invariant Buckets(norm, entries[..i], modelExact)
      {
        var entry := entries[i];
        assert entries[..i + 1] == entries[..i] + [entry] && entries[..i + 1][..i] == entries[..i];
        BucketsStep(norm, entries[..i], entry, modelExact);
        var providerKey, modelKey := norm(entry.providerID), norm(entry.modelID);
        if providerKey == "" || modelKey == "" {
          continue;
        }
        providerModel := providerModel[PairKey(providerKey, modelKey) := entry];
        var bucket := if modelKey in modelExact then modelExact[modelKey] else [];
        modelExact := modelExact[modelKey := bucket + [entry]];
      }
      assert entries[..|entries|] == entries;
    }

    method SortBuckets()
      requires Valid()
      modifies this`modelExact
      ensures Valid()
    {
      var rest := modelExact.Keys;
      while rest != {}
        invariant Valid() && rest <= modelExact.Keys
        decreases |rest|
      {
        var key :| key in rest;
        SortBucket(key, ByProvider);
        rest := rest - {key};
      }
    }

    method SortBucket(key: string, o: Order)
      requires Valid() && key in modelExact
      modifies this`modelExact
      ensures Valid() && modelExact.Keys == old(modelExact.Keys) && SortedBy(norm, o, modelExact[key])
    {
      var sorted := SortEntries(norm, o, modelExact[key]);
      BucketsReorder(norm, entries, modelExact, key, sorted);
      modelExact := modelExact[key := sorted];
    }

    /** The entries and the request are such that lookups have one answer. */
    ghost predicate Determined(providerID: string, modelID: string) {
      && DistinctPairs(entries) && NulFreeProviders(norm, entries)
      && forall c :: c in Candidates(norm, providerID) ==> Unambiguous(norm, c, norm(modelID))
    }

    /** Looks for an exact pair among the requested providers. */
    method FindPair(candidates: seq<string>, model: string) returns (hit: Option<Entry>)
      requires Valid()
      ensures hit == IndexedHit(norm, entries, candidates, model)
    {
      for i := 0 to |candidates|
        invariant IndexedHit(norm, entries, candidates, model) == IndexedHit(norm, entries, candidates[i..], model)
      {
        assert candidates[i..][1..] == candidates[i + 1..];
        var key := PairKey(candidates[i], model);
        if key in providerModel {
          return Some(providerModel[key]);
        }
      }
      return None;
    }

    /** Sorts the cached list where it is and takes its head. */
    method PickExact(candidates: seq<string>, model: string) returns (best: Entry)
      requires Valid() && model in modelExact
      modifies this`modelExact
      ensures Valid()
      ensures SameModel(norm, entries, model) != []
      ensures DistinctPairs(entries) ==> best == Best(norm, candidates, SameModel(norm, entries, model))
    {
      ghost var s := SameModel(norm, entries, model);
      SortBucket(model, Preferred(candidates));
      assert Bucket(norm, entries, modelExact, model);
      SameMembers(modelExact[model], s);
      if DistinctPairs(entries) { SortedHeadIsBest(norm, candidates, s, modelExact[model], entries); }
      best := modelExact[model][0];
    }

    method PickPrefix(candidates: seq<string>, model: string) returns (best: Option<Entry>)
      ensures best.None? <==> WithPrefix(norm, entries, model) == []
      ensures best.Some? && DistinctPairs(entries) ==>
                best.value == Best(norm, candidates, WithPrefix(norm, entries, model))
    {
      var matches: seq<Entry> := [];
      for i := 0 to |entries|
        invariant matches == WithPrefix(norm, entries[..i], model)
      {
        assert entries[..i + 1][..i] == entries[..i];
        if model <= norm(entries[i].modelID) {
          matches := matches + [entries[i]];
        }
      }
      assert entries[..|entries|] == entries;
      if matches == [] {
        return None;
      }
      var sorted := SortEntries(norm, Preferred(candidates), matches);
      SameMembers(sorted, matches);
      if DistinctPairs(entries) { SortedHeadIsBest(norm, candidates, matches, sorted, entries); }
      return Some(sorted[0]);
    }

    /** The answer depends on the entries alone, whatever earlier lookups did to the cached lists, and is
        the plain search's for every unambiguous request. */
    method Resolve(providerID: string, modelID: string) returns (r: Response)
      requires Valid()
      modifies this`modelExact
      ensures Valid()
      ensures DistinctPairs(entries) ==>
                r == Answer(norm, entries, version, Candidates(norm, providerID), norm(modelID))
      ensures Determined(providerID, modelID) ==>
                r == Search(norm, entries, version, Candidates(norm, providerID), norm(modelID))
    {
      if Determined(providerID, modelID) && norm(modelID) != "" {
        HitsAgree(norm, entries, Candidates(norm, providerID), norm(modelID));
      }
      var model := norm(modelID);
      if model == "" {
        return NotFound;
      }
      var candidates := ProviderMatchCandidates(norm, providerID);
      var hit := FindPair(candidates, model);
      if hit.Some? {
        return Found(ProviderModelExact, hit.value, version);
      }
      assert Bucket(norm, entries, modelExact, model);
      if model in modelExact {
        var best := PickExact(candidates, model);
        return Found(ModelExact, best, version);
      }
      var prefixed := PickPrefix(candidates, model);
      if prefixed.Some? {
        return Found(ModelPrefix, prefixed.value, version);
      }
      return NotFound;
    }

    /** The answer a query gets from a fresh snapshot. */
    ghost predicate RightAnswer(query: (string, string), r: Response) {
      && (DistinctPairs(entries) ==> r == Answer(norm, entries, version, Candidates(norm, query.0), norm(query.1)))
      && (Determined(query.0, query.1) ==>
          r == Search(norm, entries, version, Candidates(norm, query.0), norm(query.1)))
    }

    /** History independence: in any sequence of lookups each gets the answer it would get alone. */
    method ResolveAll(queries: seq<(string, string)>) returns (rs: seq<Response>)
      requires Valid()
      modifies this`modelExact
      ensures Valid() && |rs| == |queries|
      ensures forall i :: 0 <= i < |queries| ==> RightAnswer(queries[i], rs[i])
    {
      rs := [];
      for i := 0 to |queries|
        invariant Valid() && |rs| == i
        invariant forall j :: 0 <= j < i ==> RightAnswer(queries[j], rs[j])
      {
        var r := Resolve(queries[i].0, queries[i].1);
        rs := rs + [r];
      }
    }
  }
}
