/** Updating a Pod's metadata converges in one step to what creating the Pod
    would have written, removes exactly what left the template, and reports a
    change exactly when there is one. */
module MetadataTheorems {
  import opened KeyList
  import opened Metadata

  predicate Same(m: Keys, n: Keys, k: string) {
    (k in m <==> k in n) && Get(m, k) == Get(n, k)
  }

  // ----- What is due under each key, from the Sandbox itself -----

  // A key that the system does not reserve.
  predicate Free(k: string) {
    !("agents.x-k8s.io/" <= k) && !("extensions.agents.x-k8s.io/" <= k)
  }

  function FreeLabels(s: Sandbox): set<string> {
    set k | k in s.templateLabels && Free(k)
  }

  function FreeAnnotations(s: Sandbox): set<string> {
    set k | k in s.templateAnnotations && Free(k) && k != "opentelemetry.io/trace-context"
  }

  /** The labels that follow the owner: a claim's Pod says which claim, a
      pool's which pool, and any of them which template. Empty for none. */
  function DueLabel(s: Sandbox, k: string): string {
    match s.owner
    case Unowned => ""
    case Claim(_) => if k == SANDBOX_ID || k == TEMPLATE_HASH then Get(s.labels, k) else ""
    case Pool => if k == WARM_POOL || k == TEMPLATE_HASH then Get(s.labels, k) else ""
    case OtherExtension => if k == TEMPLATE_HASH then Get(s.labels, k) else ""
  }

  function DueClaim(s: Sandbox): string {
    match s.owner
    case Claim(name) => name
    case _ => ""
  }

  // Who created it, as one of few known names.
  function DueMaker(s: Sandbox): string {
    var maker := Get(s.labels, CREATED_BY);
    if maker in {"", "go-client", "python-client", "controller"} then maker else "unknown"
  }

  predicate ManagedLabel(s: Sandbox, k: string) {
    k in FreeLabels(s) || k in {NAME_HASH, SANDBOX_ID, WARM_POOL, TEMPLATE_HASH, CREATED_BY}
  }

  predicate ManagedAnnotation(s: Sandbox, k: string) {
    k in FreeAnnotations(s) || k in {PROPAGATED_LABELS, PROPAGATED_ANNOTATIONS, CLAIM_NAME}
  }

  // The key has this value; an empty one is not there at all.
  predicate Holds(m: Keys, k: string, v: string) {
    if v == "" then k !in m else k in m && m[k] == v
  }

  lemma {:induction false} AsDue(s: Sandbox)
    ensures LabelKeys(s) == FreeLabels(s) && AnnotationKeys(s) == FreeAnnotations(s) && CreatedBy(s) == DueMaker(s)
    ensures Holds(ExtensionAnnotations(s), CLAIM_NAME, DueClaim(s))
    ensures forall k :: Holds(ExtensionLabels(s), k, DueLabel(s, k))
    ensures forall k :: k in EXTENSION_LABELS <==> k == SANDBOX_ID || k == WARM_POOL || k == TEMPLATE_HASH
  {
    ReservedKeys();
  }

  // What an update leaves as the label k.
  ghost predicate LabelLeft(p: Metadata, s: Sandbox, hash: string, m: Keys, k: string) {
    if k in FreeLabels(s) then
      Get(m, k) == s.templateLabels[k] && (k in m <==> k in p.labels || s.templateLabels[k] != "")
    else if k == NAME_HASH then Get(m, k) == hash && (k in m <==> k in p.labels || hash != "")
    else if k == SANDBOX_ID || k == WARM_POOL || k == TEMPLATE_HASH then Holds(m, k, DueLabel(s, k))
    else if k == CREATED_BY then Holds(m, k, DueMaker(s))
    else if k in Names(Get(p.annotations, PROPAGATED_LABELS)) then k !in m
    else Same(m, p.labels, k)
  }

  lemma {:induction false} PutLeft(m: Keys, key: string, v: string, k: string)
    ensures var n := Put(m, key, v);
      if k == key then Get(n, k) == v && (k in n <==> k in m || v != "") else Same(n, m, k)
  {
  }

  lemma {:induction false} SteppedLeft(m: Keys, w: Wanted, k: string)
    requires w.keys <= w.template.Keys
    requires forall x | x in w.own :: x !in w.keys
    requires w.keys !! w.gone && forall x | x in w.want :: x in w.own && w.want[x] != ""
    ensures var n := Stepped(m, w);
      if k in w.keys then Get(n, k) == w.template[k] && (k in n <==> k in m || w.template[k] != "")
      else if k in w.own then Same(n, w.want, k)
      else if k in w.gone then k !in n
      else Same(n, m, k)
  {
  }

  lemma {:induction false} LabelsAreApart(p: Metadata, s: Sandbox)
    ensures var w := WantedLabels(p, s);
      && (forall x | x in w.own :: x !in w.keys)
      && w.keys !! w.gone && (forall x | x in w.want :: x in w.own && w.want[x] != "")
      && NAME_HASH !in w.own && NAME_HASH !in w.keys && NAME_HASH !in w.gone
      && CREATED_BY !in w.own && CREATED_BY !in w.keys && CREATED_BY != NAME_HASH
  {
    ReservedKeys();
  }

  lemma {:induction false} LabelsLeft(p: Metadata, s: Sandbox, hash: string, k: string)
    ensures LabelLeft(p, s, hash, UpdatedLabels(p, s, hash), k)
  {
    var w := WantedLabels(p, s);
    var hashed := Put(p.labels, NAME_HASH, hash);
    AsDue(s);
    LabelsAreApart(p, s);
    PutLeft(p.labels, NAME_HASH, hash, k);
    SteppedLeft(hashed, w, k);
    var n := Stepped(hashed, w);
    PutLeft(n, CREATED_BY, CreatedBy(s), k);
  }

  ghost predicate AnnotationLeft(a: Keys, s: Sandbox, m: Keys, k: string) {
    if k in FreeAnnotations(s) then
      Get(m, k) == s.templateAnnotations[k] && (k in m <==> k in a || s.templateAnnotations[k] != "")
    else if k == CLAIM_NAME then Holds(m, k, DueClaim(s))
    else if k == PROPAGATED_LABELS then
      Get(m, k) == Listed(FreeLabels(s)) && (k in m <==> k in a || Listed(FreeLabels(s)) != "")
    else if k == PROPAGATED_ANNOTATIONS then
      Get(m, k) == Listed(FreeAnnotations(s)) && (k in m <==> k in a || Listed(FreeAnnotations(s)) != "")
    else if k in Names(Get(a, PROPAGATED_ANNOTATIONS)) then k !in m
    else Same(m, a, k)
  }

  lemma {:induction false} AnnotationsAreApart(a: Keys, s: Sandbox)
    ensures var w := WantedAnnotations(a, s);
      && (forall x | x in w.own :: x !in w.keys)
      && w.keys !! w.gone && (forall x | x in w.want :: x in w.own && w.want[x] != "")
      && (forall x | x in w.own :: x == CLAIM_NAME)
      && PROPAGATED_LABELS !in w.keys && PROPAGATED_ANNOTATIONS !in w.keys
      && PROPAGATED_LABELS !in w.gone && PROPAGATED_ANNOTATIONS !in w.gone
      && PROPAGATED_LABELS != PROPAGATED_ANNOTATIONS
      && CLAIM_NAME != PROPAGATED_LABELS && CLAIM_NAME != PROPAGATED_ANNOTATIONS
  {
    ReservedKeys();
  }

  lemma {:induction false} AnnotationsLeft(a: Keys, s: Sandbox, k: string)
    ensures AnnotationLeft(a, s, UpdatedAnnotations(a, s), k)
  {
    var w := WantedAnnotations(a, s);
    AsDue(s);
    AnnotationsAreApart(a, s);
    SteppedLeft(a, w, k);
    var m := Stepped(a, w);
    var labels, annotations := Listed(LabelKeys(s)), Listed(AnnotationKeys(s));
    PutLeft(m, PROPAGATED_LABELS, labels, k);
    PutLeft(Put(m, PROPAGATED_LABELS, labels), PROPAGATED_ANNOTATIONS, annotations, k);
  }

  // ----- Settled metadata -----

  /** Every key the controller manages holds what it should. Whether a user's
      key with an empty value is there at all makes no difference. */
  ghost predicate LabelSettled(p: Metadata, s: Sandbox, hash: string, k: string) {
    && (k in FreeLabels(s) ==> Get(p.labels, k) == s.templateLabels[k])
    && (k == NAME_HASH ==> Get(p.labels, k) == hash)
    && (k == SANDBOX_ID || k == WARM_POOL || k == TEMPLATE_HASH ==> Holds(p.labels, k, DueLabel(s, k)))
    && (k == CREATED_BY ==> Holds(p.labels, k, DueMaker(s)))
  }

  ghost predicate AnnotationSettled(a: Keys, s: Sandbox, k: string) {
    && (k in FreeAnnotations(s) ==> Get(a, k) == s.templateAnnotations[k])
    && (k == CLAIM_NAME ==> Holds(a, k, DueClaim(s)))
    && (k == PROPAGATED_LABELS ==> Get(a, k) == Listed(FreeLabels(s)))
    && (k == PROPAGATED_ANNOTATIONS ==> Get(a, k) == Listed(FreeAnnotations(s)))
  }

  ghost predicate AnnotationsSettled(a: Keys, s: Sandbox) {
    forall k :: AnnotationSettled(a, s, k)
  }

  ghost predicate Settled(p: Metadata, s: Sandbox, hash: string) {
    AnnotationsSettled(p.annotations, s) && forall k :: LabelSettled(p, s, hash, k)
  }

  predicate CommaFreeKeys(s: Sandbox) {
    (forall k | k in s.templateLabels :: CommaFree(k)) && (forall k | k in s.templateAnnotations :: CommaFree(k))
  }

  /** An update settles any metadata: under every managed key stands what
      creating the Pod writes, and keys that were never propagated are left
      as they were. */
  lemma {:induction false} UpdateSettles(p: Metadata, s: Sandbox, hash: string)
    ensures Settled(Updated(p, s, hash), s, hash)
  {
    LabelsAreApart(p, s);
    AnnotationsAreApart(p.annotations, s);
    forall k
      ensures LabelSettled(Updated(p, s, hash), s, hash, k) && AnnotationSettled(UpdatedAnnotations(p.annotations, s), s, k)
    {
      LabelsLeft(p, s, hash, k);
      AnnotationsLeft(p.annotations, s, k);
    }
  }

  lemma {:induction false} WithListLeft(m: Keys, key: string, keys: set<string>, k: string)
    requires key !in m
    ensures var n := WithList(m, key, keys);
      if k == key then (k in n <==> keys != {}) && (k in n ==> n[k] == Listed(keys)) else Same(n, m, k)
  {
  }

  /** What a Pod is created with, key by key: the free keys of the template,
      what is due under the controllers' own keys, and nothing else. */
  lemma {:induction false} CreatedLabelIs(s: Sandbox, hash: string, k: string)
    ensures var m := Created(s, hash).labels;
      if k in FreeLabels(s) then k in m && m[k] == s.templateLabels[k]
      else if k == NAME_HASH then k in m && m[k] == hash
      else if k == CREATED_BY then Holds(m, k, DueMaker(s))
      else Holds(m, k, DueLabel(s, k))
  {
    AsDue(s);
    LabelsAreApart(Created(s, hash), s);
  }

  lemma {:induction false} CreatedAnnotationIs(s: Sandbox, k: string)
    ensures var m := CreatedAnnotations(s);
      if k in FreeAnnotations(s) then k in m && m[k] == s.templateAnnotations[k]
      else if k == CLAIM_NAME then Holds(m, k, DueClaim(s))
      else if k == PROPAGATED_LABELS then
        (k in m <==> FreeLabels(s) != {}) && (k in m ==> m[k] == Listed(FreeLabels(s)))
      else if k == PROPAGATED_ANNOTATIONS then
        (k in m <==> FreeAnnotations(s) != {}) && (k in m ==> m[k] == Listed(FreeAnnotations(s)))
      else k !in m
  {
    AsDue(s);
    AnnotationsAreApart(map[], s);
    var user := map x | x in AnnotationKeys(s) :: s.templateAnnotations[x];
    var m := user + ExtensionAnnotations(s);
    WithListLeft(m, PROPAGATED_LABELS, LabelKeys(s), k);
    WithListLeft(m, PROPAGATED_LABELS, LabelKeys(s), PROPAGATED_ANNOTATIONS);
    WithListLeft(WithList(m, PROPAGATED_LABELS, LabelKeys(s)), PROPAGATED_ANNOTATIONS, AnnotationKeys(s), k);
    hide WithList, Free, DueMaker, FreeLabels, Listed;
  }

  // What a Pod is created with is settled.
  lemma {:induction false} CreateSettles(s: Sandbox, hash: string)
    ensures Settled(Created(s, hash), s, hash)
  {
    assert Listed({}) == "";
    AsDue(s);
    AnnotationsAreApart(map[], s);
    LabelsAreApart(Created(s, hash), s);
    forall k
      ensures LabelSettled(Created(s, hash), s, hash, k) && AnnotationSettled(CreatedAnnotations(s), s, k)
    {
      CreatedLabelIs(s, hash, k);
      CreatedAnnotationIs(s, k);
    }
  }

  lemma {:induction false} SettledAgree(p: Metadata, q: Metadata, s: Sandbox, hash: string, k: string)
    requires Settled(p, s, hash) && Settled(q, s, hash)
    ensures ManagedLabel(s, k) ==> Get(p.labels, k) == Get(q.labels, k)
    ensures ManagedAnnotation(s, k) ==> Get(p.annotations, k) == Get(q.annotations, k)
  {
    AsDue(s);
    assert LabelSettled(p, s, hash, k) && LabelSettled(q, s, hash, k);
    assert AnnotationSettled(p.annotations, s, k) && AnnotationSettled(q.annotations, s, k);
  }

  /** Convergence: from any metadata, an update leaves under every key that
      the controller manages the value that creating the Pod writes. */
  lemma {:induction false} UpdateMeetsCreate(p: Metadata, s: Sandbox, hash: string, k: string)
    ensures ManagedLabel(s, k) ==> Get(Updated(p, s, hash).labels, k) == Get(Created(s, hash).labels, k)
    ensures ManagedAnnotation(s, k) ==> Get(Updated(p, s, hash).annotations, k) == Get(Created(s, hash).annotations, k)
  {
    UpdateSettles(p, s, hash);
    CreateSettles(s, hash);
    SettledAgree(Updated(p, s, hash), Created(s, hash), s, hash, k);
  }

  /** Under every other key an update removes exactly what was recorded as
      propagated, and changes nothing else. */
  lemma {:induction false} UpdateTouchesNothingElse(p: Metadata, s: Sandbox, hash: string, k: string)
    ensures !ManagedLabel(s, k) ==>
      if k in Names(Get(p.annotations, PROPAGATED_LABELS)) then k !in Updated(p, s, hash).labels
      else Same(Updated(p, s, hash).labels, p.labels, k)
    ensures !ManagedAnnotation(s, k) ==>
      if k in Names(Get(p.annotations, PROPAGATED_ANNOTATIONS)) then k !in Updated(p, s, hash).annotations
      else Same(Updated(p, s, hash).annotations, p.annotations, k)
  {
    LabelsLeft(p, s, hash, k);
    AnnotationsLeft(p.annotations, s, k);
  }

  lemma {:induction false} SameMaps(m: Keys, n: Keys)
    requires forall k :: Same(m, n, k)
    ensures m == n
  {
    forall k
      ensures k in m <==> k in n
      ensures k in m ==> m[k] == n[k]
    {
      assert Same(m, n, k);
    }
  }

  lemma {:induction false} SettledLabelStays(p: Metadata, s: Sandbox, hash: string, k: string)
    requires LabelSettled(p, s, hash, k) && CommaFreeKeys(s)
    requires Get(p.annotations, PROPAGATED_LABELS) == Listed(FreeLabels(s))
    ensures Same(UpdatedLabels(p, s, hash), p.labels, k)
  {
    LabelsLeft(p, s, hash, k);
    NamesOfList(FreeLabels(s));
  }

  lemma {:induction false} SettledAnnotationStays(p: Metadata, s: Sandbox, k: string)
    requires AnnotationSettled(p.annotations, s, k) && CommaFreeKeys(s)
    requires Get(p.annotations, PROPAGATED_ANNOTATIONS) == Listed(FreeAnnotations(s))
    ensures Same(UpdatedAnnotations(p.annotations, s), p.annotations, k)
  {
    AnnotationsLeft(p.annotations, s, k);
    NamesOfList(FreeAnnotations(s));
  }

  // Settled metadata is a fixed point, for keys without commas.
  lemma {:induction false} SettledIsFixed(p: Metadata, s: Sandbox, hash: string)
    requires Settled(p, s, hash) && CommaFreeKeys(s)
    ensures Updated(p, s, hash) == p
  {
    assert AnnotationSettled(p.annotations, s, PROPAGATED_LABELS) && AnnotationSettled(p.annotations, s, PROPAGATED_ANNOTATIONS);
    forall k
      ensures Same(UpdatedLabels(p, s, hash), p.labels, k) && Same(UpdatedAnnotations(p.annotations, s), p.annotations, k)
    {
      assert LabelSettled(p, s, hash, k) && AnnotationSettled(p.annotations, s, k);
      SettledLabelStays(p, s, hash, k);
      SettledAnnotationStays(p, s, k);
    }
    SameMaps(UpdatedLabels(p, s, hash), p.labels);
    SameMaps(UpdatedAnnotations(p.annotations, s), p.annotations);
  }

  // A second update changes nothing, and a Pod just created needs none.
  lemma {:induction false} OneUpdateIsEnough(p: Metadata, s: Sandbox, hash: string)
    requires CommaFreeKeys(s)
    ensures Updated(Updated(p, s, hash), s, hash) == Updated(p, s, hash)
    ensures Updated(Created(s, hash), s, hash) == Created(s, hash)
  {
    UpdateSettles(p, s, hash);
    SettledIsFixed(Updated(p, s, hash), s, hash);
    CreateSettles(s, hash);
    SettledIsFixed(Created(s, hash), s, hash);
  }

  /** What left the template leaves the Pod: from any settled metadata, a
      change of the Sandbox removes every key that only the old template
      had, and no key that neither template has. */
  lemma {:induction false} LeavesWithTemplate(p: Metadata, s: Sandbox, t: Sandbox, hash: string, k: string)
    requires Settled(p, s, hash) && CommaFreeKeys(s) && k != ""
    ensures !ManagedLabel(t, k) ==>
      if k in FreeLabels(s) then k !in Updated(p, t, hash).labels else Same(Updated(p, t, hash).labels, p.labels, k)
    ensures !ManagedAnnotation(t, k) ==>
      if k in FreeAnnotations(s) then k !in Updated(p, t, hash).annotations
      else Same(Updated(p, t, hash).annotations, p.annotations, k)
  {
    assert AnnotationSettled(p.annotations, s, PROPAGATED_LABELS) && AnnotationSettled(p.annotations, s, PROPAGATED_ANNOTATIONS);
    NamesOfList(FreeLabels(s));
    NamesOfList(FreeAnnotations(s));
    UpdateTouchesNothingElse(p, t, hash, k);
  }

  // ----- Steps that have nothing to do -----

  predicate Idle(m: Keys, w: Wanted)
    requires w.keys <= w.template.Keys
  {
    Copied(m, w.template, w.keys) == m && w.gone == {} && Owned(m, w.own, w.want) == m
  }

  lemma {:induction false} IdleSteps(m: Keys, w: Wanted)
    requires w.keys <= w.template.Keys && w.gone == {}
    requires forall k | k in w.keys :: Get(m, k) == w.template[k]
    requires forall k | k in w.own :: Same(m, w.want, k)
    ensures Idle(m, w)
  {
  }

  // On settled metadata no step of an update has anything to do.
  lemma {:induction false} SettledLabelsAreIdle(p: Metadata, s: Sandbox, hash: string)
    requires Settled(p, s, hash) && CommaFreeKeys(s)
    ensures Idle(p.labels, WantedLabels(p, s))
    ensures Get(p.labels, NAME_HASH) == hash
    ensures Get(p.labels, CREATED_BY) == CreatedBy(s) && (CREATED_BY in p.labels <==> CreatedBy(s) != "")
  {
    AsDue(s);
    assert AnnotationSettled(p.annotations, s, PROPAGATED_LABELS);
    assert LabelSettled(p, s, hash, NAME_HASH) && LabelSettled(p, s, hash, CREATED_BY);
    NamesOfList(FreeLabels(s));
    var w := WantedLabels(p, s);
    assert w.gone == {};
    forall k
      ensures k in w.keys ==> Get(p.labels, k) == w.template[k]
      ensures k in w.own ==> Same(p.labels, w.want, k)
    {
      assert LabelSettled(p, s, hash, k);
    }
    IdleSteps(p.labels, w);
  }

  lemma {:induction false} SettledAnnotationsAreIdle(a: Keys, s: Sandbox)
    requires AnnotationsSettled(a, s) && CommaFreeKeys(s)
    ensures Idle(a, WantedAnnotations(a, s))
    ensures Get(a, PROPAGATED_LABELS) == Listed(LabelKeys(s))
    ensures Get(a, PROPAGATED_ANNOTATIONS) == Listed(AnnotationKeys(s))
  {
    AsDue(s);
    assert AnnotationSettled(a, s, PROPAGATED_LABELS) && AnnotationSettled(a, s, PROPAGATED_ANNOTATIONS);
    NamesOfList(FreeAnnotations(s));
    var w := WantedAnnotations(a, s);
    assert w.gone == {};
    forall k
      ensures k in w.keys ==> Get(a, k) == w.template[k]
      ensures k in w.own ==> Same(a, w.want, k)
    {
      assert AnnotationSettled(a, s, k);
    }
    IdleSteps(a, w);
  }

  lemma {:induction false} CopyKeeps(m: Keys, template: Keys, keys: set<string>, k: string)
    requires keys <= template.Keys && k !in keys
    ensures Get(Copied(m, template, keys), k) == Get(m, k)
  {
  }

  lemma {:induction false} NoChangeIsSettled(p: Metadata, s: Sandbox, hash: string)
    ensures Updated(p, s, hash) == p ==> Settled(p, s, hash)
  {
    hide Updated, Settled;
    UpdateSettles(p, s, hash);
  }
}
