/** The API server's copy of a Service's annotations, and the patches sent to it. */
module Patching {
  import opened Prelude
  import opened ServiceSpec

  /** Changed annotations with their new value, removed ones with none. */
  type Patch = map<string, Option<string>>

  function Diff(current: Annotations, modified: Annotations): Patch {
    map k | k in current.Keys + modified.Keys
            && !(k in current && k in modified && current[k] == modified[k])
      :: if k in modified then Some(modified[k]) else None
  }

  function Patched(a: Annotations, p: Patch): Annotations {
    map k | k in a.Keys + p.Keys && !(k in p && p[k].None?) :: if k in p then p[k].value else a[k]
  }

  /** Patching the snapshot with the difference yields the modified annotations; on any other
      copy it changes the differing keys and no more. */
  lemma PatchedDiff(a: Annotations, current: Annotations, modified: Annotations)
    ensures Patched(current, Diff(current, modified)) == modified
    ensures var r := Patched(a, Diff(current, modified));
            forall k | k !in Diff(current, modified) :: (k in r <==> k in a) && (k in a ==> r[k] == a[k])
    ensures Diff(current, modified) == map[] <==> current == modified
  {
    assert Patched(current, Diff(current, modified)) == modified;
    if Diff(current, modified) == map[] {
      assert forall k | k in current.Keys + modified.Keys :: k !in Diff(current, modified);
      assert current == modified;
    }
  }

  lemma PatchedOne(a: Annotations, current: Annotations, k: string, v: string)
    requires !(k in current && current[k] == v)
    ensures Diff(current, current[k := v]) == map[k := Some(v)]
    ensures Patched(a, Diff(current, current[k := v])) == a[k := v]
  {
    assert Diff(current, current[k := v]) == map[k := Some(v)];
    assert Patched(a, map[k := Some(v)]) == a[k := v];
  }

  class ApiServer {
    var annotations: Annotations
    var faults: nat             // how many patches failed

    method Patch(p: Patch) returns (ok: bool)
      modifies this
      ensures ok ==> annotations == Patched(old(annotations), p)
      ensures !ok ==> annotations == old(annotations) || annotations == Patched(old(annotations), p)
      ensures faults == old(faults) + if ok then 0 else 1
    {
      var outcome: Outcome := *;
      if outcome != Refused { annotations := Patched(annotations, p); }
      if outcome != Done { faults := faults + 1; }
      return outcome == Done;
    }
  }

  /** Keeps a snapshot of the Service as it was, and the Service itself, which its owner goes
      on to change. */
  class ServicePatcher {
    const api: ApiServer
    const current: Annotations
    const modified: Service

    constructor (api: ApiServer, service: Service)
      ensures this.api == api && this.current == service.annotations && this.modified == service
    {
      this.api := api;
      this.current := service.annotations;
      this.modified := service;
    }

    /** Sends what changed since the snapshot; nothing when nothing did. */
    method Submit() returns (ok: bool)
      modifies api
      ensures current == modified.annotations ==> ok && api.annotations == old(api.annotations)
      ensures ok ==> api.annotations == Patched(old(api.annotations), Diff(current, modified.annotations))
      ensures !ok ==> api.annotations == old(api.annotations)
                      || api.annotations == Patched(old(api.annotations), Diff(current, modified.annotations))
      ensures ok && old(api.annotations) == current ==> api.annotations == modified.annotations
      ensures api.faults == old(api.faults) + if ok then 0 else 1
    {
      PatchedDiff(api.annotations, current, modified.annotations);
      var patch := Diff(current, modified.annotations);
      if patch == map[] {
        assert Patched(api.annotations, patch) == api.annotations;
        return true;
      }
      ok := api.Patch(patch);
    }
  }

  /** Sets one annotation on the controller's copy, then on the API server's. The copy keeps
      the new value even when the patch fails; a value already there is not sent again. */
  method PatchAnnotation(api: ApiServer, service: Service, k: string, v: string) returns (ok: bool)
    modifies api, service
    ensures service.annotations == old(service.annotations)[k := v]
    ensures ok ==> api.annotations == old(api.annotations)[k := v]
                   || (service.annotations == old(service.annotations) && api.annotations == old(api.annotations))
    ensures !ok ==> api.annotations == old(api.annotations) || api.annotations == old(api.annotations)[k := v]
    ensures ok && old(service.annotations) == old(api.annotations) ==> service.annotations == api.annotations
    ensures api.faults == old(api.faults) + if ok then 0 else 1
  {
    var patcher := new ServicePatcher(api, service);
    if k in service.annotations && service.annotations[k] == v {
      assert service.annotations[k := v] == service.annotations;
      return true;
    }
    service.annotations := service.annotations[k := v];
    PatchedOne(api.annotations, patcher.current, k, v);
    ok := patcher.Submit();
  }
}
