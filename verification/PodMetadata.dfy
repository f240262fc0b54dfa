/** Updating a Pod's labels and annotations in place, loop by loop, over maps
    whose keys come in any order. */
module PodMetadata {
  import opened KeyList
  import opened Metadata
  import T = MetadataTheorems

  lemma {:induction false} CopiedStep(m: Keys, template: Keys, keys: set<string>, k: string)
    requires keys <= template.Keys && k in template && k !in keys
    ensures T.Same(Copied(m, template, keys), m, k)
    ensures Copied(m, template, keys + {k}) == Put(Copied(m, template, keys), k, template[k])
  {
  }

  lemma {:induction false} OwnedStep(m: Keys, keys: seq<string>, want: Keys, key: string)
    ensures var n := Owned(m, keys, want);
      && Owned(m, keys + [key], want) == (if key in want then Put(n, key, want[key]) else n - {key})
      && (key !in keys ==> T.Same(n, m, key))
      && (key in keys ==> Owned(m, keys + [key], want) == n)
  {
    assert forall k :: k in keys + [key] <==> k in keys || k == key;
  }

  // Writes the template's values over m where they differ.
  method CopyTemplate(m: Keys, template: Keys, system: string -> bool)
    returns (next: Keys, managed: set<string>, changed: bool)
    ensures managed == set k | k in template && !system(k)
    ensures next == Copied(m, template, managed)
    ensures changed <==> next != m
  {
    next, managed, changed := m, {}, false;
    var rest := template.Keys;
    while rest != {}
      invariant rest <= template.Keys
      invariant managed == set k | k in template.Keys - rest && !system(k)
      invariant next == Copied(m, template, managed)
      invariant changed <==> next != m
      decreases rest
    {
      var k :| k in rest;
      rest := rest - {k};
      if !system(k) {
        CopiedStep(m, template, managed, k);
        if Get(next, k) != template[k] {
          next := next[k := template[k]];
          changed := true;
        }
        managed := managed + {k};
      }
    }
  }

  /** Deletes what was propagated and is no longer in the template. A change
      is reported for every name that left it, whether or not it was there. */
  method Scrub(m: Keys, list: string, template: Keys, system: string -> bool, keep: string -> bool)
    returns (next: Keys, changed: bool)
    ensures var gone := Gone(list, template, system, keep);
      && next == Scrubbed(m, gone)
      && (next != m ==> changed)
      && (changed ==> gone != {})
  {
    next, changed := m, false;
    ghost var gone := Gone(list, template, system, keep);
    if list == "" {
      assert gone == {};
      return;
    }
    var parts := Split(list);
    ghost var dropped: set<string> := {};
    for i := 0 to |parts|
      invariant dropped <= gone && next == Scrubbed(m, dropped)
      invariant forall j | 0 <= j < i :: parts[j] in gone ==> parts[j] in dropped
      invariant (next != m ==> changed) && (changed ==> gone != {})
    {
      var k := parts[i];
      if k == "" {
        continue;
      }
      assert k in Names(list);
      if system(k) {
        if keep(k) {
          continue;
        }
        if k in next {
          next := next - {k};
          changed := true;
        }
        dropped := dropped + {k};
      } else if k !in template {
        next := next - {k};
        changed := true;
        dropped := dropped + {k};
      }
    }
    assert dropped == gone;
  }

  method ReconcileOwnedKeys(m: Keys, keys: seq<string>, want: Keys) returns (next: Keys, changed: bool)
    ensures next == Owned(m, keys, want)
    ensures changed <==> next != m
  {
    next, changed := m, false;
    for i := 0 to |keys|
      invariant next == Owned(m, keys[..i], want)
      invariant changed <==> next != m
    {
      var key := keys[i];
      assert keys[..i + 1] == keys[..i] + [key];
      OwnedStep(m, keys[..i], want, key);
      if key in want {
        if Get(next, key) != want[key] {
          next := next[key := want[key]];
          changed := true;
        }
      } else if key in next {
        next := next - {key};
        changed := true;
      }
    }
    assert keys[..|keys|] == keys;
  }

  predicate IsNameHash(key: string) { key == NAME_HASH }

  function Gone(list: string, template: Keys, system: string -> bool, keep: string -> bool): set<string> {
    set k | k in Names(list) && if system(k) then !keep(k) else k !in template
  }

  // The two steps after the copy.
  method Reconcile(m: Keys, list: string, template: Keys, system: string -> bool, keep: string -> bool,
                   own: seq<string>, want: Keys)
    returns (next: Keys, changed: bool)
    ensures var gone := Gone(list, template, system, keep);
      && next == Owned(Scrubbed(m, gone), own, want)
      && (next != m ==> changed)
      && (gone == {} && Owned(m, own, want) == m ==> !changed)
  {
    var scrubbed, c1 := Scrub(m, list, template, system, keep);
    var c2;
    next, c2 := ReconcileOwnedKeys(scrubbed, own, want);
    changed := c1 || c2;
    assert Scrubbed(m, {}) == m;
  }

  class Pod {
    var labels: Keys
    var annotations: Keys

    constructor (labels: Keys, annotations: Keys)
      ensures Now() == Metadata(labels, annotations)
    {
      this.labels, this.annotations := labels, annotations;
    }

    ghost function Now(): Metadata
      reads this
    {
      Metadata(labels, annotations)
    }

    method PutLabel(key: string, v: string) returns (changed: bool)
      modifies this`labels
      ensures labels == Put(old(labels), key, v)
      ensures changed <==> Get(old(labels), key) != v
    {
      changed := Get(labels, key) != v;
      if changed {
        labels := labels[key := v];
      }
    }

    method PutAnnotation(key: string, v: string) returns (changed: bool)
      modifies this`annotations
      ensures annotations == Put(old(annotations), key, v)
      ensures changed <==> Get(old(annotations), key) != v
    {
      changed := Get(annotations, key) != v;
      if changed {
        annotations := annotations[key := v];
      }
    }

    // A label that is there with this value, or not there for an empty one.
    method SetLabel(key: string, v: string) returns (changed: bool)
      modifies this`labels
      ensures labels == WithValue(old(labels), key, v)
      ensures labels != old(labels) ==> changed
      ensures Get(old(labels), key) == v && (key in old(labels) <==> v != "") ==> !changed
    {
      changed := false;
      if v != "" {
        changed := PutLabel(key, v);
      } else if key in labels {
        labels := labels - {key};
        changed := true;
      }
    }

    method UpdateLabels(s: Sandbox, hash: string) returns (updated: bool)
      modifies this`labels
      ensures labels == UpdatedLabels(old(Now()), s, hash)
      ensures labels != old(labels) ==> updated
      ensures T.CommaFreeKeys(s) && T.Settled(old(Now()), s, hash) ==> !updated
    {
      ghost var p, w := Now(), WantedLabels(Now(), s);
      var c1 := PutLabel(NAME_HASH, hash);
      ghost var hashed := labels;
      var keys, c2, c3;
      labels, keys, c2 := CopyTemplate(labels, s.templateLabels, SystemLabel);
      var list := Get(annotations, PROPAGATED_LABELS);
      assert keys == w.keys && w.gone == Gone(list, s.templateLabels, SystemLabel, IsNameHash);
      labels, c3 := Reconcile(labels, list, s.templateLabels, SystemLabel, IsNameHash, EXTENSION_LABELS, ExtensionLabels(s));
      assert labels == Stepped(hashed, w);
      var c4 := SetLabel(CREATED_BY, CreatedBy(s));
      updated := c1 || c2 || c3 || c4;
      if T.CommaFreeKeys(s) && T.Settled(p, s, hash) {
        T.SettledLabelsAreIdle(p, s, hash);
      }
    }

    // The template's annotations and the extensions' own.
    method StepAnnotations(s: Sandbox) returns (changed: bool)
      modifies this`annotations
      ensures var w := WantedAnnotations(old(annotations), s);
        && annotations == Stepped(old(annotations), w)
        && (annotations != old(annotations) ==> changed)
        && (T.Idle(old(annotations), w) ==> !changed)
    {
      ghost var w := WantedAnnotations(annotations, s);
      T.AnnotationsAreApart(annotations, s);
      var keys, c1, c2;
      annotations, keys, c1 := CopyTemplate(annotations, s.templateAnnotations, SystemAnnotation);
      assert keys == w.keys;
      T.CopyKeeps(old(annotations), w.template, w.keys, PROPAGATED_ANNOTATIONS);
      var list := Get(annotations, PROPAGATED_ANNOTATIONS);
      assert w.gone == Gone(list, s.templateAnnotations, SystemAnnotation, Kept);
      annotations, c2 := Reconcile(annotations, list, s.templateAnnotations, SystemAnnotation, Kept, [CLAIM_NAME], ExtensionAnnotations(s));
      changed := c1 || c2;
    }

    method UpdateAnnotations(s: Sandbox) returns (updated: bool)
      modifies this`annotations
      ensures annotations == UpdatedAnnotations(old(annotations), s)
      ensures annotations != old(annotations) ==> updated
      ensures T.AnnotationsSettled(old(annotations), s) && T.CommaFreeKeys(s) ==> !updated
    {
      if T.AnnotationsSettled(annotations, s) && T.CommaFreeKeys(s) {
        T.SettledAnnotationsAreIdle(annotations, s);
      }
      var c1 := StepAnnotations(s);
      var c2 := PutAnnotation(PROPAGATED_LABELS, Listed(LabelKeys(s)));
      var c3 := PutAnnotation(PROPAGATED_ANNOTATIONS, Listed(AnnotationKeys(s)));
      updated := c1 || c2 || c3;
    }

    /** Brings the Pod's metadata to what the Sandbox asks for. A change is
        reported whenever there is one and, for keys without commas, only
        then. */
    method Update(s: Sandbox, hash: string) returns (updated: bool)
      modifies this
      ensures Now() == Updated(old(Now()), s, hash)
      ensures Now() != old(Now()) ==> updated
      ensures T.CommaFreeKeys(s) && updated ==> Now() != old(Now())
    {
      hide UpdatedLabels, UpdatedAnnotations, T.AnnotationsSettled;
      T.NoChangeIsSettled(Now(), s, hash);
      var relabelled := UpdateLabels(s, hash);
      var reannotated := UpdateAnnotations(s);
      updated := relabelled || reannotated;
    }
  }
}
