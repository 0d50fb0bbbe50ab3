/** Brand kit versions: canonical content, digests, and numbering under concurrent creators. */
module BrandKit {
  import opened Wrappers
  import opened Tables
  import opened Sorting

  /** NFKC with whitespace collapsed, and casefolding, as given by the platform. */
  datatype TextRules = TextRules(text: string -> string, fold: string -> string)

  // ----- normalized lists -----

  /** The folded terms of a list, empty ones dropped. */
  ghost predicate IsTerm(u: TextRules, values: seq<string>, k: string) {
    exists i :: 0 <= i < |values| && u.text(values[i]) != "" && u.fold(u.text(values[i])) == k
  }

  /** The dictionary built so far: keys in insertion order, and the first spelling of each. */
  datatype Terms = Terms(keys: seq<string>, first: map<string, string>)

  function AddTerm(u: TextRules, t: Terms, value: string): Terms {
    var normalized := u.text(value);
    if normalized == "" || u.fold(normalized) in t.first then t
    else Terms(t.keys + [u.fold(normalized)], t.first[u.fold(normalized) := normalized])
  }

  function Collect(u: TextRules, values: seq<string>): Terms {
    if values == [] then Terms([], map[]) else AddTerm(u, Collect(u, values[..|values| - 1]), values[|values| - 1])
  }

  ghost predicate TermsInv(u: TextRules, t: Terms) {
    && Distinct(t.keys)
    && (forall k :: k in t.keys <==> k in t.first)
    && (forall k :: k in t.first ==> u.fold(t.first[k]) == k && t.first[k] != "")
  }

  lemma {:induction false} CollectMeaning(u: TextRules, values: seq<string>)
    ensures TermsInv(u, Collect(u, values))
    ensures forall k :: k in Collect(u, values).first <==> IsTerm(u, values, k)
  {
    if values != [] {
      var init, last := values[..|values| - 1], values[|values| - 1];
      CollectMeaning(u, init);
      var t, t' := Collect(u, init), Collect(u, values);
      assert values == init + [last];
      forall k ensures k in t'.first <==> IsTerm(u, values, k) {
        if IsTerm(u, init, k) {
          var i :| 0 <= i < |init| && u.text(init[i]) != "" && u.fold(u.text(init[i])) == k;
          assert values[i] == init[i];
        }
        if u.text(last) != "" && u.fold(u.text(last)) == k { assert values[|init|] == last; }
        if IsTerm(u, values, k) && !IsTerm(u, init, k) {
          var i :| 0 <= i < |values| && u.text(values[i]) != "" && u.fold(u.text(values[i])) == k;
          if i < |init| { assert init[i] == values[i]; }
        }
      }
      forall i, j | 0 <= i < j < |t'.keys| ensures t'.keys[i] != t'.keys[j] {
        if j == |t.keys| { assert t'.keys[i] in t.keys; }
      }
    }
  }

  function Spell(first: map<string, string>, keys: seq<string>): seq<string>
    requires forall k :: k in keys ==> k in first
  {
    if keys == [] then [] else [first[keys[0]]] + Spell(first, keys[1..])
  }

  lemma {:induction false} SpellAt(first: map<string, string>, keys: seq<string>)
    requires forall k :: k in keys ==> k in first
    ensures |Spell(first, keys)| == |keys|
    ensures forall i :: 0 <= i < |keys| ==> Spell(first, keys)[i] == first[keys[i]]
  {
    if keys != [] { SpellAt(first, keys[1..]); }
  }

  lemma SortedKeysKnown(u: TextRules, values: seq<string>)
    ensures forall k :: k in Sort(StringLe, Collect(u, values).keys) ==> k in Collect(u, values).first
  {
    CollectMeaning(u, values);
    SortKeepsElements(StringLe, Collect(u, values).keys);
  }

  /** The stored list: the first spelling of every term, in the order of the folded terms. */
  ghost function NormalizedList(u: TextRules, values: seq<string>): seq<string> {
    SortedKeysKnown(u, values);
    Spell(Collect(u, values).first, Sort(StringLe, Collect(u, values).keys))
  }

  /** What the digest sees of a list: its terms, folded. */
  ghost function FoldedList(u: TextRules, values: seq<string>): seq<string> {
    var list := NormalizedList(u, values);
    seq(|list|, i requires 0 <= i < |list| => u.fold(list[i]))
  }

  lemma FoldedListIsSortedTerms(u: TextRules, values: seq<string>)
    ensures FoldedList(u, values) == Sort(StringLe, Collect(u, values).keys)
  {
    CollectMeaning(u, values);
    SortedKeysKnown(u, values);
    var keys := Sort(StringLe, Collect(u, values).keys);
    SpellAt(Collect(u, values).first, keys);
    forall i | 0 <= i < |keys| ensures FoldedList(u, values)[i] == keys[i] {
      assert keys[i] in keys;
    }
  }

  /** Order, repetition and case of a list never matter to the digest; its set of terms always does. */
  lemma FoldedListIffSameTerms(u: TextRules, a: seq<string>, b: seq<string>)
    ensures FoldedList(u, a) == FoldedList(u, b) <==> forall k :: IsTerm(u, a, k) <==> IsTerm(u, b, k)
  {
    FoldedListIsSortedTerms(u, a);
    FoldedListIsSortedTerms(u, b);
    CollectMeaning(u, a);
    CollectMeaning(u, b);
    var x, y := Collect(u, a).keys, Collect(u, b).keys;
    StringLeIsOrder();
    SortIsCanonical(StringLe, x, y);
    SortKeepsElements(StringLe, x);
    SortKeepsElements(StringLe, y);
    if FoldedList(u, a) == FoldedList(u, b) {
      forall k ensures IsTerm(u, a, k) <==> IsTerm(u, b, k) {
        assert k in x <==> k in Sort(StringLe, x);
      }
    }
    if forall k :: IsTerm(u, a, k) <==> IsTerm(u, b, k) {
      forall k ensures k in x <==> k in y { }
      SameElementsSameMultiset(x, y);
    }
  }

  /** Normalizing a stored list again changes nothing that the digest sees. */
  lemma StoredListKeepsTerms(u: TextRules, values: seq<string>)
    requires forall v :: u.text(u.text(v)) == u.text(v)
    ensures FoldedList(u, NormalizedList(u, values)) == FoldedList(u, values)
  {
    CollectMeaning(u, values);
    SortedKeysKnown(u, values);
    var keys, first := Sort(StringLe, Collect(u, values).keys), Collect(u, values).first;
    SortKeepsElements(StringLe, Collect(u, values).keys);
    SpellAt(first, keys);
    SpellingsAreText(u, values);
    var list := NormalizedList(u, values);
    forall k ensures IsTerm(u, list, k) <==> IsTerm(u, values, k) {
      if IsTerm(u, values, k) {
        var i :| 0 <= i < |keys| && keys[i] == k;
        assert list[i] == first[k];
      }
      if IsTerm(u, list, k) {
        var i :| 0 <= i < |list| && u.text(list[i]) != "" && u.fold(u.text(list[i])) == k;
        assert keys[i] in keys;
      }
    }
    FoldedListIffSameTerms(u, list, values);
  }

  lemma {:induction false} SpellingsAreText(u: TextRules, values: seq<string>)
    requires forall v :: u.text(u.text(v)) == u.text(v)
    ensures forall k :: k in Collect(u, values).first ==> u.text(Collect(u, values).first[k]) == Collect(u, values).first[k]
  {
    if values != [] { SpellingsAreText(u, values[..|values| - 1]); }
  }

  /** values[i] is the first value that spells the term k. */
  ghost predicate FirstSpelling(u: TextRules, values: seq<string>, i: nat, k: string) {
    && i < |values| && u.text(values[i]) != "" && u.fold(u.text(values[i])) == k
    && forall j :: 0 <= j < i ==> u.text(values[j]) == "" || u.fold(u.text(values[j])) != k
  }

  lemma {:induction false} CollectKeepsFirst(u: TextRules, values: seq<string>, k: string) returns (i: nat)
    requires k in Collect(u, values).first
    ensures FirstSpelling(u, values, i, k) && Collect(u, values).first[k] == u.text(values[i])
  {
    var init, last := values[..|values| - 1], values[|values| - 1];
    assert values == init + [last];
    CollectMeaning(u, init);
    if k in Collect(u, init).first {
      i := CollectKeepsFirst(u, init, k);
      assert forall j :: 0 <= j <= i ==> values[j] == init[j];
    } else {
      i := |init|;
      forall j | 0 <= j < i ensures u.text(values[j]) == "" || u.fold(u.text(values[j])) != k {
        assert values[j] == init[j] && !IsTerm(u, init, k);
      }
    }
  }

  /** The stored list and the sorted terms, position by position. */
  lemma ListByKeys(u: TextRules, values: seq<string>)
    ensures var t, keys, list := Collect(u, values), Sort(StringLe, Collect(u, values).keys), NormalizedList(u, values);
      && |list| == |keys|
      && (forall p :: 0 <= p < |list| ==> keys[p] in t.first && list[p] == t.first[keys[p]] && u.fold(list[p]) == keys[p])
      && Sorted(StringLe, keys) && Distinct(keys) && (forall k :: k in keys <==> IsTerm(u, values, k))
  {
    CollectMeaning(u, values);
    SortedKeysKnown(u, values);
    var t, keys := Collect(u, values), Sort(StringLe, Collect(u, values).keys);
    StringLeIsOrder();
    SortSorts(StringLe, t.keys);
    SortPermutes(StringLe, t.keys);
    SortKeepsElements(StringLe, t.keys);
    DistinctByMultiset(t.keys, keys);
    SpellAt(t.first, keys);
    forall p | 0 <= p < |keys| ensures keys[p] in t.first { assert keys[p] in keys; }
  }

  ghost predicate SpelledFirst(u: TextRules, values: seq<string>, item: string) {
    exists i: nat :: FirstSpelling(u, values, i, u.fold(item)) && item == u.text(values[i])
  }

  predicate Ascends(u: TextRules, list: seq<string>) {
    forall p, q :: 0 <= p < q < |list| ==> StringLe(u.fold(list[p]), u.fold(list[q])) && u.fold(list[p]) != u.fold(list[q])
  }

  predicate HasFolded(u: TextRules, list: seq<string>, k: string) { exists p :: 0 <= p < |list| && u.fold(list[p]) == k }

  /** The stored list: its terms ascend strictly, every term is there, and each is spelled as it first was. */
  lemma NormalizedListExact(u: TextRules, values: seq<string>)
    ensures var list := NormalizedList(u, values);
      && Ascends(u, list)
      && (forall k :: IsTerm(u, values, k) <==> HasFolded(u, list, k))
      && (forall p :: 0 <= p < |list| ==> SpelledFirst(u, values, list[p]))
  {
    var keys, list := Sort(StringLe, Collect(u, values).keys), NormalizedList(u, values);
    ListByKeys(u, values);
    forall p | 0 <= p < |list| ensures SpelledFirst(u, values, list[p]) {
      var i := CollectKeepsFirst(u, values, keys[p]);
    }
    forall k ensures IsTerm(u, values, k) <==> HasFolded(u, list, k) {
      if IsTerm(u, values, k) {
        var p :| 0 <= p < |keys| && keys[p] == k;
        assert u.fold(list[p]) == k;
      }
      if HasFolded(u, list, k) {
        var p :| 0 <= p < |list| && u.fold(list[p]) == k;
        assert keys[p] in keys;
      }
    }
  }

  // ----- content and digest -----

  const TEXT_FIELDS: nat := 4
  const LIST_FIELDS: nat := 7

  /** Four text fields; seven list fields, of which 0 is preferred_terms and 1 forbidden_terms. */
  datatype Input = Input(texts: seq<string>, lists: seq<seq<string>>)

  predicate WellFormed(c: Input) { |c.texts| == TEXT_FIELDS && |c.lists| == LIST_FIELDS }

  /** The canonical payload whose SHA-256 is the digest; payloads stand for their digests. */
  datatype Payload = Payload(texts: seq<string>, lists: seq<seq<string>>)

  ghost function Canonical(u: TextRules, c: Input): Payload {
    Payload(seq(|c.texts|, i requires 0 <= i < |c.texts| => u.text(c.texts[i])),
            seq(|c.lists|, i requires 0 <= i < |c.lists| => FoldedList(u, c.lists[i])))
  }

  ghost predicate Accepted(u: TextRules, c: Input)
    requires WellFormed(c)
  {
    && (forall i :: 0 <= i < TEXT_FIELDS ==> u.text(c.texts[i]) != "")
    && (forall k :: !(IsTerm(u, c.lists[0], k) && IsTerm(u, c.lists[1], k)))
  }

  ghost predicate SameContent(u: TextRules, a: Input, b: Input)
    requires WellFormed(a) && WellFormed(b)
  {
    && (forall i :: 0 <= i < TEXT_FIELDS ==> u.text(a.texts[i]) == u.text(b.texts[i]))
    && (forall i, k :: 0 <= i < LIST_FIELDS ==> (IsTerm(u, a.lists[i], k) <==> IsTerm(u, b.lists[i], k)))
  }

  /** Two inputs get one digest exactly when their texts agree and every list has the same set of terms. */
  lemma DigestIffSameContent(u: TextRules, a: Input, b: Input)
    requires WellFormed(a) && WellFormed(b)
    ensures Canonical(u, a) == Canonical(u, b) <==> SameContent(u, a, b)
  {
    forall i | 0 <= i < LIST_FIELDS
      ensures FoldedList(u, a.lists[i]) == FoldedList(u, b.lists[i])
              <==> forall k :: IsTerm(u, a.lists[i], k) <==> IsTerm(u, b.lists[i], k)
    {
      FoldedListIffSameTerms(u, a.lists[i], b.lists[i]);
    }
    var x, y := Canonical(u, a), Canonical(u, b);
    if x == y {
      forall i | 0 <= i < TEXT_FIELDS ensures u.text(a.texts[i]) == u.text(b.texts[i]) {
        assert x.texts[i] == y.texts[i];
      }
      forall i | 0 <= i < LIST_FIELDS ensures FoldedList(u, a.lists[i]) == FoldedList(u, b.lists[i]) {
        assert x.lists[i] == y.lists[i];
      }
    }
  }

  /** What is stored of an input. */
  ghost predicate Normalizes(u: TextRules, c: Input, content: Input) {
    && |content.texts| == |c.texts| && |content.lists| == |c.lists|
    && (forall i :: 0 <= i < |c.texts| ==> content.texts[i] == u.text(c.texts[i]))
    && (forall i :: 0 <= i < |c.lists| ==> content.lists[i] == NormalizedList(u, c.lists[i]))
  }

  /** Whether content is accepted depends only on what the digest sees of it. */
  lemma SameContentSameVerdict(u: TextRules, a: Input, b: Input)
    requires WellFormed(a) && WellFormed(b) && SameContent(u, a, b)
    ensures Accepted(u, a) <==> Accepted(u, b)
  {
    assert forall k :: (IsTerm(u, a.lists[0], k) <==> IsTerm(u, b.lists[0], k)) && (IsTerm(u, a.lists[1], k) <==> IsTerm(u, b.lists[1], k));
  }

  /** Preferred and forbidden terms overlap exactly when two stored items fold to the same term. */
  lemma OverlapIsSeen(u: TextRules, a: seq<string>, b: seq<string>)
    ensures (exists p, q :: 0 <= p < |NormalizedList(u, a)| && 0 <= q < |NormalizedList(u, b)|
                            && u.fold(NormalizedList(u, a)[p]) == u.fold(NormalizedList(u, b)[q]))
            <==> exists k :: IsTerm(u, a, k) && IsTerm(u, b, k)
  {
    NormalizedListExact(u, a);
    NormalizedListExact(u, b);
    var x, y := NormalizedList(u, a), NormalizedList(u, b);
    if k :| IsTerm(u, a, k) && IsTerm(u, b, k) {
      assert HasFolded(u, x, k) && HasFolded(u, y, k);
      var p :| 0 <= p < |x| && u.fold(x[p]) == k;
      var q :| 0 <= q < |y| && u.fold(y[q]) == k;
      assert u.fold(x[p]) == u.fold(y[q]);
    }
    if p, q :| 0 <= p < |x| && 0 <= q < |y| && u.fold(x[p]) == u.fold(y[q]) {
      assert HasFolded(u, x, u.fold(x[p])) && HasFolded(u, y, u.fold(x[p]));
    }
  }

  // ----- numbering -----

  const MAX_VERSION_NUMBER_RETRIES: nat := 2

  datatype Version = Version(number: nat, digest: string)

  datatype VersionReply = VersionCreated(number: nat) | VersionReused(number: nat) | Contested | ConstraintRaised

  predicate VersionsInv(versions: seq<Version>) {
    && (forall i :: 0 <= i < |versions| ==> versions[i].number == i + 1)
    && (forall i, j :: 0 <= i < j < |versions| ==> versions[i].digest != versions[j].digest)
  }

  function DigestOf(v: Version): string { v.digest }

  function NumberOf(v: Version): int { v.number }

  /** One more than the highest number among the first n rows. */
  function MaxNumber(versions: seq<Version>, n: nat): nat
    requires n <= |versions|
  {
    if n == 0 then 0
    else
      var m := MaxNumber(versions, n - 1);
      if versions[n - 1].number > m then versions[n - 1].number else m
  }

  /** One try of create_version; its reads see only the first `seen` rows. */
  function Try(versions: seq<Version>, seen: nat, digest: string): (seq<Version>, VersionReply) {
    var n := if seen < |versions| then seen else |versions|;
    var known := Find(versions, DigestOf, digest, n);
    if known.Some? then (versions, VersionReused(versions[known.value].number))
    else
      var number := MaxNumber(versions, n) + 1;
      var sameDigest := Find(versions, DigestOf, digest, |versions|);
      var sameNumber := Find(versions, NumberOf, number, |versions|);
      if sameDigest.None? && sameNumber.None? then (versions + [Version(number, digest)], VersionCreated(number))
      else if sameDigest.Some? then (versions, VersionReused(versions[sameDigest.value].number))
      else if versions[sameNumber.value].digest == digest then (versions, ConstraintRaised)
      else (versions, Contested)
  }

  lemma {:induction false} MaxNumberIsCount(versions: seq<Version>, n: nat)
    requires VersionsInv(versions) && n <= |versions|
    ensures MaxNumber(versions, n) == n
  {
    if n > 0 { MaxNumberIsCount(versions, n - 1); }
  }

  /** However stale its reads, a try keeps versions numbered 1..n without gaps and with distinct digests. */
  lemma TryKeeps(versions: seq<Version>, seen: nat, digest: string)
    requires VersionsInv(versions)
    ensures var (versions', reply) := Try(versions, seen, digest);
      && VersionsInv(versions') && versions <= versions'
      && reply != ConstraintRaised
      && (reply.VersionCreated? ==> reply.number == |versions| + 1 == |versions'| && versions'[|versions|].digest == digest)
      && (reply.VersionReused? ==> versions' == versions && 1 <= reply.number <= |versions|
                                   && versions[reply.number - 1].digest == digest)
      && (reply == Contested ==> versions' == versions && seen < |versions|)
  {
    var n := if seen < |versions| then seen else |versions|;
    MaxNumberIsCount(versions, n);
    NumberTakenIff(versions, n);
    if Find(versions, DigestOf, digest, |versions|).None? { AppendKeeps(versions, digest); }
  }

  /** The reply to a try: its digest's version if there is one; a new version if its reads were up to date; contested otherwise. */
  lemma TryExact(versions: seq<Version>, seen: nat, digest: string)
    requires VersionsInv(versions)
    ensures var (versions', reply) := Try(versions, seen, digest);
      if i :| 0 <= i < |versions| && versions[i].digest == digest then versions' == versions && reply == VersionReused(i + 1)
      else if seen >= |versions| then
        versions' == versions + [Version(|versions| + 1, digest)] && reply == VersionCreated(|versions| + 1)
      else versions' == versions && reply == Contested
  {
    var n := if seen < |versions| then seen else |versions|;
    MaxNumberIsCount(versions, n);
    NumberTakenIff(versions, n);
    if i :| 0 <= i < |versions| && versions[i].digest == digest { assert DigestOf(versions[i]) == digest; }
  }

  lemma NumberTakenIff(versions: seq<Version>, n: nat)
    requires VersionsInv(versions) && n <= |versions|
    ensures Find(versions, NumberOf, n + 1, |versions|) == if n < |versions| then Some(n) else None
  {
    if n < |versions| { assert NumberOf(versions[n]) == n + 1; }
  }

  lemma AppendKeeps(versions: seq<Version>, digest: string)
    requires VersionsInv(versions) && Find(versions, DigestOf, digest, |versions|).None?
    ensures VersionsInv(versions + [Version(|versions| + 1, digest)])
  {
    forall i | 0 <= i < |versions| ensures versions[i].digest != digest { assert DigestOf(versions[i]) != digest; }
  }

  /** Tries of any number of creators, in any order. */
  function RunTries(versions: seq<Version>, tries: seq<(nat, string)>): seq<Version>
    decreases |tries|
  {
    if tries == [] then versions else RunTries(Try(versions, tries[0].0, tries[0].1).0, tries[1..])
  }

  lemma {:induction false} RunTriesKeeps(versions: seq<Version>, tries: seq<(nat, string)>)
    requires VersionsInv(versions)
    ensures VersionsInv(RunTries(versions, tries)) && versions <= RunTries(versions, tries)
    decreases |tries|
  {
    if tries != [] {
      TryKeeps(versions, tries[0].0, tries[0].1);
      RunTriesKeeps(Try(versions, tries[0].0, tries[0].1).0, tries[1..]);
    }
  }

  /** Once a digest has a version, every later try for it, after any other activity, reuses that version. */
  lemma DigestKeepsItsVersion(versions: seq<Version>, tries: seq<(nat, string)>, i: nat, seen: nat)
    requires VersionsInv(versions) && i < |versions|
    ensures Try(RunTries(versions, tries), seen, versions[i].digest) == (RunTries(versions, tries), VersionReused(i + 1))
  {
    RunTriesKeeps(versions, tries);
    var v := RunTries(versions, tries);
    assert v[i] == versions[i];
    TryKeeps(v, seen, versions[i].digest);
    var reply := Try(v, seen, versions[i].digest).1;
    var same := Find(v, DigestOf, versions[i].digest, |v|);
    assert same.Some?;
  }

  /** What a try read stays true of the rows it read, whatever is added after them. */
  lemma ReadsStay(read: seq<Version>, versions: seq<Version>, digest: string)
    requires VersionsInv(versions) && read <= versions && Find(read, DigestOf, digest, |read|).None?
    ensures Find(versions, DigestOf, digest, |read|).None?
    ensures MaxNumber(versions, |read|) == MaxNumber(read, |read|)
  {
    MaxNumberIsCount(versions, |read|);
    assert forall i :: 0 <= i < |read| ==> read[i] == versions[i];
    assert VersionsInv(read);
    MaxNumberIsCount(read, |read|);
    assert forall i :: 0 <= i < |read| ==> versions[i].digest != digest;
  }

  ghost predicate HasDigest(versions: seq<Version>, digest: string) { exists v :: v in versions && v.digest == digest }

  /** A reply is the digest's own version, the newest one if it was just made; the constraint error never surfaces. */
  ghost predicate Answers(versions: seq<Version>, digest: string, reply: VersionReply) {
    && reply != ConstraintRaised
    && (reply.VersionCreated? || reply.VersionReused? ==>
          1 <= reply.number <= |versions| && versions[reply.number - 1] == Version(reply.number, digest))
    && (reply.VersionCreated? ==> reply.number == |versions|)
  }

  lemma TryAnswers(versions: seq<Version>, seen: nat, digest: string)
    requires VersionsInv(versions)
    ensures var (versions', reply) := Try(versions, seen, digest);
      && VersionsInv(versions') && versions <= versions' && Answers(versions', digest, reply)
      && (reply == Contested ==> |versions'| > seen)
  {
    TryKeeps(versions, seen, digest);
  }

  lemma NotFoundMeansAbsent(versions: seq<Version>, digest: string)
    ensures Find(versions, DigestOf, digest, |versions|).None? ==> !HasDigest(versions, digest)
  {
  }

  lemma PrefixChains(a: seq<Version>, b: seq<Version>, c: seq<Version>)
    requires a <= b && b <= c
    ensures a <= c
  {
  }

  class BrandKitService {
    var versions: seq<Version>

    ghost predicate Valid()
      reads this
    {
      VersionsInv(versions)
    }

    constructor ()
      ensures Valid() && versions == []
    {
      versions := [];
    }

    /** The insert of one try, whose reads saw the first `seen` rows and chose `number`. */
    method TryInsert(digest: string, seen: nat, number: nat) returns (reply: VersionReply)
      requires Valid() && seen <= |versions|
      requires Find(versions, DigestOf, digest, seen).None? && number == MaxNumber(versions, seen) + 1
      modifies this
      ensures (versions, reply) == Try(old(versions), seen, digest)
    {
      var existing := Find(versions, DigestOf, digest, |versions|);
      var competing := Find(versions, NumberOf, number, |versions|);
      if existing.None? && competing.None? {
        versions := versions + [Version(number, digest)];
        reply := VersionCreated(number);
      } else if existing.Some? {
        reply := VersionReused(versions[existing.value].number);
      } else if competing.None? || versions[competing.value].digest == digest {
        reply := ConstraintRaised;
      } else {
        reply := Contested;
      }
    }

    /**
     One try: read, let `others` commit, insert.  It reuses the digest's version without writing when
     there is one, and is contested only when another version was added since the read.
     */
    method TryOnce(digest: string, others: seq<(nat, string)>) returns (reply: VersionReply)
      requires Valid()
      modifies this
      ensures Valid() && old(versions) <= versions
      ensures Answers(versions, digest, reply)
      ensures HasDigest(old(versions), digest) ==> versions == old(versions) && reply.VersionReused?
      ensures reply == Contested ==> |versions| > |old(versions)|
    {
      var existing := Find(versions, DigestOf, digest, |versions|);
      if existing.Some? { return VersionReused(versions[existing.value].number); }
      var seen, number := |versions|, MaxNumber(versions, |versions|) + 1;
      ghost var read := versions;
      NotFoundMeansAbsent(read, digest);
      RunTriesKeeps(read, others);
      versions := RunTries(versions, others);
      ReadsStay(read, versions, digest);
      TryAnswers(versions, seen, digest);
      PrefixChains(read, versions, Try(versions, seen, digest).0);
      reply := TryInsert(digest, seen, number);
    }

    /**
     The retry loop of create_version.  `others` are the tries of other creators, with reads of any
     age, that commit between the reads and the insert of each of its own tries.
     */
    method CreateVersion(digest: string, others: seq<seq<(nat, string)>>) returns (reply: VersionReply)
      requires Valid() && |others| == MAX_VERSION_NUMBER_RETRIES + 1
      modifies this
      ensures Valid() && old(versions) <= versions
      ensures Answers(versions, digest, reply)
      ensures HasDigest(old(versions), digest) ==> versions == old(versions) && reply.VersionReused?
      ensures reply == Contested ==> |versions| > |old(versions)| + MAX_VERSION_NUMBER_RETRIES
    {
      reply := Contested;
      for attempt := 0 to MAX_VERSION_NUMBER_RETRIES + 1
        invariant Valid() && old(versions) <= versions && reply == Contested
        invariant if attempt == 0 then versions == old(versions) else !HasDigest(old(versions), digest)
        invariant |versions| >= |old(versions)| + attempt
      {
        reply := TryOnce(digest, others[attempt]);
        if reply != Contested { return; }
      }
    }

    /** _normalized_content: None stands for the two refusals, an empty text and overlapping terms. */
    static method NormalizedContent(u: TextRules, c: Input) returns (content: Option<Input>)
      requires WellFormed(c)
      ensures content.Some? <==> Accepted(u, c)
      ensures content.Some? ==> Normalizes(u, c, content.value)
    {
      var texts: seq<string>, lists: seq<seq<string>> := [], [];
      for i := 0 to |c.texts|
        invariant |texts| == i && forall k :: 0 <= k < i ==> texts[k] == u.text(c.texts[k])
      {
        texts := texts + [u.text(c.texts[i])];
      }
      for i := 0 to |c.lists|
        invariant |lists| == i && forall k :: 0 <= k < i ==> lists[k] == NormalizedList(u, c.lists[k])
      {
        var list := Normalize(u, c.lists[i]);
        lists := lists + [list];
      }
      if exists i :: 0 <= i < |texts| && texts[i] == "" { return None; }
      OverlapIsSeen(u, c.lists[0], c.lists[1]);
      assert lists[0] == NormalizedList(u, c.lists[0]) && lists[1] == NormalizedList(u, c.lists[1]);
      if exists p, q :: 0 <= p < |lists[0]| && 0 <= q < |lists[1]| && u.fold(lists[0][p]) == u.fold(lists[1][q]) { return None; }
      content := Some(Input(texts, lists));
    }

    /** _digest: the texts as they are, every list folded. */
    static method DigestPayload(u: TextRules, content: Input) returns (payload: Payload)
      ensures forall c :: Normalizes(u, c, content) ==> payload == Canonical(u, c)
    {
      var lists: seq<seq<string>> := [];
      for i := 0 to |content.lists|
        invariant |lists| == i
        invariant forall k :: 0 <= k < i ==> |lists[k]| == |content.lists[k]|
        invariant forall k, p :: 0 <= k < i && 0 <= p < |lists[k]| ==> lists[k][p] == u.fold(content.lists[k][p])
      {
        var list := content.lists[i];
        lists := lists + [seq(|list|, p requires 0 <= p < |list| => u.fold(list[p]))];
      }
      payload := Payload(content.texts, lists);
      forall c | Normalizes(u, c, content) ensures payload == Canonical(u, c) {
        forall k | 0 <= k < |c.lists| ensures lists[k] == FoldedList(u, c.lists[k]) { }
        assert payload.texts == Canonical(u, c).texts && payload.lists == Canonical(u, c).lists;
      }
    }

    /** _normalized_list: fill the dictionary, then list it in key order. */
    static method Normalize(u: TextRules, values: seq<string>) returns (list: seq<string>)
      ensures list == NormalizedList(u, values)
    {
      var keys: seq<string>, first: map<string, string> := [], map[];
      for i := 0 to |values|
        invariant Terms(keys, first) == Collect(u, values[..i])
      {
        assert values[..i + 1][..i] == values[..i];
        var normalized := u.text(values[i]);
        if normalized != "" {
          var key := u.fold(normalized);
          if key !in first {
            keys := keys + [key];
            first := first[key := normalized];
          }
        }
      }
      assert values[..|values|] == values;
      var ordered := Sort(StringLe, keys);
      SortedKeysKnown(u, values);
      SpellAt(first, ordered);
      list := [];
      for i := 0 to |ordered|
        invariant list == Spell(first, ordered)[..i]
      {
        assert ordered[i] in ordered;
        list := list + [first[ordered[i]]];
      }
    }
  }
}
