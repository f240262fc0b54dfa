/** The labels and annotations of a Sandbox's Pod: what a new Pod is created
    with, and how an existing Pod is brought to it. */
module Metadata {
  import opened KeyList

  type Keys = map<string, string>

  const PREFIX := "agents.x-k8s.io/"
  const EXTENSIONS_PREFIX := "extensions.agents.x-k8s.io/"
  const NAME_HASH := PREFIX + "sandbox-name-hash"
  const SANDBOX_ID := PREFIX + "claim-uid"
  const WARM_POOL := PREFIX + "warm-pool-sandbox"
  const TEMPLATE_HASH := PREFIX + "sandbox-template-ref-hash"
  const CREATED_BY := PREFIX + "created-by"
  const PROPAGATED_LABELS := PREFIX + "propagated-labels"
  const PROPAGATED_ANNOTATIONS := PREFIX + "propagated-annotations"
  const CLAIM_NAME := PREFIX + "claim-name"
  const TRACE_CONTEXT := "opentelemetry.io/trace-context"

  predicate Reserved(key: string) {
    PREFIX <= key || EXTENSIONS_PREFIX <= key
  }

  predicate SystemLabel(key: string) { Reserved(key) }

  predicate SystemAnnotation(key: string) { Reserved(key) || key == TRACE_CONTEXT }

  // An annotation the controller itself keeps on the Pod.
  predicate Kept(key: string) {
    key == PROPAGATED_LABELS || key == PROPAGATED_ANNOTATIONS || key == CLAIM_NAME
  }

  datatype Owner = Unowned | Claim(name: string) | Pool | OtherExtension

  datatype Sandbox = Sandbox(labels: Keys, owner: Owner, templateLabels: Keys, templateAnnotations: Keys)

  datatype Metadata = Metadata(labels: Keys, annotations: Keys)

  // A key that is missing reads as empty.
  function Get(m: Keys, k: string): string {
    if k in m then m[k] else ""
  }

  const EXTENSION_LABELS := [SANDBOX_ID, WARM_POOL, TEMPLATE_HASH]

  function ExtensionLabels(s: Sandbox): (m: Keys)
    ensures forall k | k in m :: k in EXTENSION_LABELS && m[k] != ""
  {
    map k | k in EXTENSION_LABELS && Get(s.labels, k) != "" && !s.owner.Unowned?
            && (k == SANDBOX_ID ==> s.owner.Claim?) && (k == WARM_POOL ==> s.owner.Pool?)
      :: Get(s.labels, k)
  }

  function ExtensionAnnotations(s: Sandbox): (m: Keys)
    ensures forall k | k in m :: k == CLAIM_NAME && m[k] != ""
  {
    if s.owner.Claim? && s.owner.name != "" then map[CLAIM_NAME := s.owner.name] else map[]
  }

  function Normalized(maker: string): (r: string)
    ensures r != ""
  {
    if maker == "go-client" || maker == "python-client" || maker == "controller" then maker else "unknown"
  }

  // Empty when the Sandbox does not say.
  function CreatedBy(s: Sandbox): string {
    if Get(s.labels, CREATED_BY) != "" then Normalized(Get(s.labels, CREATED_BY)) else ""
  }

  function LabelKeys(s: Sandbox): set<string> {
    set k | k in s.templateLabels && !SystemLabel(k)
  }

  function AnnotationKeys(s: Sandbox): set<string> {
    set k | k in s.templateAnnotations && !SystemAnnotation(k)
  }

  // ----- Creating -----

  function CreatedLabels(s: Sandbox, hash: string): Keys {
    var user := map k | k in LabelKeys(s) :: s.templateLabels[k];
    var system := user[NAME_HASH := hash] + ExtensionLabels(s);
    if CreatedBy(s) != "" then system[CREATED_BY := CreatedBy(s)] else system
  }

  function WithList(m: Keys, k: string, keys: set<string>): Keys {
    if keys != {} then m[k := Listed(keys)] else m
  }

  function CreatedAnnotations(s: Sandbox): Keys {
    var user := map k | k in AnnotationKeys(s) :: s.templateAnnotations[k];
    WithList(WithList(user + ExtensionAnnotations(s), PROPAGATED_LABELS, LabelKeys(s)),
             PROPAGATED_ANNOTATIONS, AnnotationKeys(s))
  }

  function Created(s: Sandbox, hash: string): Metadata {
    Metadata(CreatedLabels(s, hash), CreatedAnnotations(s))
  }

  // ----- Updating -----

  function Put(m: Keys, k: string, v: string): Keys {
    if Get(m, k) != v then m[k := v] else m
  }

  // Template values for the given keys, written where they differ.
  function Copied(m: Keys, template: Keys, keys: set<string>): Keys
    requires keys <= template.Keys
  {
    map k | k in m.Keys + keys && (k in m || template[k] != "") :: if k in keys then template[k] else m[k]
  }

  // Without what was propagated and is no longer in the template.
  function Scrubbed(m: Keys, gone: set<string>): Keys {
    m - gone
  }

  function GoneLabels(names: set<string>, s: Sandbox): set<string> {
    set k | k in names && if SystemLabel(k) then k != NAME_HASH else k !in s.templateLabels
  }

  function GoneAnnotations(names: set<string>, s: Sandbox): set<string> {
    set k | k in names && if SystemAnnotation(k) then !Kept(k) else k !in s.templateAnnotations
  }

  // The controller's own keys hold exactly what is wanted.
  function Owned(m: Keys, keys: seq<string>, want: Keys): Keys {
    map k | k in m.Keys + want.Keys
            && if k in keys then k in want && (k in m || want[k] != "") else k in m
      :: if k in keys then want[k] else m[k]
  }

  function WithValue(m: Keys, k: string, v: string): Keys {
    if v != "" then Put(m, k, v) else m - {k}
  }

  // What is wanted, key by key and step by step.
  datatype Wanted = Wanted(template: Keys, keys: set<string>, gone: set<string>, own: seq<string>, want: Keys)

  function Stepped(m: Keys, w: Wanted): Keys
    requires w.keys <= w.template.Keys
  {
    Owned(Scrubbed(Copied(m, w.template, w.keys), w.gone), w.own, w.want)
  }

  function WantedLabels(p: Metadata, s: Sandbox): (w: Wanted)
    ensures w.keys <= w.template.Keys
  {
    Wanted(s.templateLabels, LabelKeys(s), GoneLabels(Names(Get(p.annotations, PROPAGATED_LABELS)), s),
           EXTENSION_LABELS, ExtensionLabels(s))
  }

  function WantedAnnotations(a: Keys, s: Sandbox): (w: Wanted)
    ensures w.keys <= w.template.Keys
  {
    Wanted(s.templateAnnotations, AnnotationKeys(s), GoneAnnotations(Names(Get(a, PROPAGATED_ANNOTATIONS)), s),
           [CLAIM_NAME], ExtensionAnnotations(s))
  }

  function UpdatedLabels(p: Metadata, s: Sandbox, hash: string): Keys {
    WithValue(Stepped(Put(p.labels, NAME_HASH, hash), WantedLabels(p, s)), CREATED_BY, CreatedBy(s))
  }

  function UpdatedAnnotations(a: Keys, s: Sandbox): Keys {
    var m := Stepped(a, WantedAnnotations(a, s));
    Put(Put(m, PROPAGATED_LABELS, Listed(LabelKeys(s))), PROPAGATED_ANNOTATIONS, Listed(AnnotationKeys(s)))
  }

  function Updated(p: Metadata, s: Sandbox, hash: string): Metadata {
    Metadata(UpdatedLabels(p, s, hash), UpdatedAnnotations(p.annotations, s))
  }

  // ----- What an update leaves under each key -----

  lemma {:induction false} ReservedKeys()
    ensures SystemLabel(NAME_HASH) && SystemLabel(SANDBOX_ID) && SystemLabel(WARM_POOL)
         && SystemLabel(TEMPLATE_HASH) && SystemLabel(CREATED_BY)
    ensures SystemAnnotation(PROPAGATED_LABELS) && SystemAnnotation(PROPAGATED_ANNOTATIONS) && SystemAnnotation(CLAIM_NAME)
    ensures NAME_HASH !in EXTENSION_LABELS && CREATED_BY !in EXTENSION_LABELS && NAME_HASH != CREATED_BY
    ensures PROPAGATED_LABELS != PROPAGATED_ANNOTATIONS && CLAIM_NAME != PROPAGATED_LABELS && CLAIM_NAME != PROPAGATED_ANNOTATIONS
  {
    var n := |PREFIX|;
    assert NAME_HASH[n] == 's' && SANDBOX_ID[n] == 'c' && WARM_POOL[n] == 'w' && CREATED_BY[n] == 'c';
    assert TEMPLATE_HASH[n + 8] == 't' && NAME_HASH[n + 8] == 'n';
    assert SANDBOX_ID[n + 1] == 'l' && CREATED_BY[n + 1] == 'r' && TEMPLATE_HASH[n] == 's';
    assert PROPAGATED_LABELS[n + 11] == 'l' && PROPAGATED_ANNOTATIONS[n + 11] == 'a' && CLAIM_NAME[n] == 'c';
    assert PROPAGATED_LABELS[n] == 'p' && PROPAGATED_ANNOTATIONS[n] == 'p';
  }
}
