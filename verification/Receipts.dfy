/** Terminal receipts of an adapter and their validation (src/inference_grid/receipts.py). */
module Receipts {
  import opened Wrappers

  datatype Artifact = Artifact(path: string, sha256: string)

  /** `artifacts` is absent when the receipt carries none or not a list; an item of the
      list that is not an object is absent too. */
  datatype Receipt = Receipt(
    status: string,
    finishReason: string,
    actualModel: string,
    manifest: string,
    artifacts: Option<seq<Option<Artifact>>>)

  datatype Fault =
    | StatusMismatch | FinishReasonMismatch | ModelMismatch | ManifestMismatch
    | InvalidManifestDigest | ArtifactsRequired
    | InvalidArtifact | UnsafePath | DuplicatePath | InvalidArtifactDigest

  predicate Letter(c: char) {
    'A' <= c <= 'Z' || 'a' <= c <= 'z'
  }

  predicate Sha256(v: string) {
    |v| == 64 && forall i :: 0 <= i < 64 ==> 'a' <= v[i] <= 'f' || '0' <= v[i] <= '9'
  }

  /** The parts of a path between its slashes. */
  function Parts(path: string): (parts: seq<string>)
    ensures |parts| > 0
  {
    if path == "" then [""]
    else if path[0] == '/' then [""] + Parts(path[1..])
    else var rest := Parts(path[1..]); [[path[0]] + rest[0]] + rest[1..]
  }

  predicate SafePath(path: string) {
    && path != ""
    && '\\' !in path
    && '\0' !in path
    && !(|path| >= 2 && Letter(path[0]) && path[1] == ':')
    && path[0] != '/'
    && forall p :: p in Parts(path) ==> p != "" && p != "." && p != ".."
  }

  /** What a receipt must be for a task's model and input manifest. */
  ghost predicate Acceptable(r: Receipt, model: string, manifest: string) {
    && r.status == "completed" && r.finishReason == "stop"
    && r.actualModel == model && r.manifest == manifest && Sha256(manifest)
    && r.artifacts.Some? && ItemsAcceptable(r.artifacts.value)
  }

  /** The faults the header fields of a receipt earn. */
  function HeaderFaults(r: Receipt, model: string, manifest: string): seq<Fault> {
    var e0 := if r.status != "completed" then [StatusMismatch] else [];
    var e1 := if r.finishReason != "stop" then e0 + [FinishReasonMismatch] else e0;
    var e2 := if r.actualModel != model then e1 + [ModelMismatch] else e1;
    var e3 := if r.manifest != manifest then e2 + [ManifestMismatch] else e2;
    if !Sha256(r.manifest) then e3 + [InvalidManifestDigest] else e3
  }

  /** The safe paths of the first `n` items: what `seen` holds in the loop. */
  function Seen(items: seq<Option<Artifact>>, n: nat): set<string>
    requires n <= |items|
  {
    if n == 0 then {}
    else
      Seen(items, n - 1) +
      if items[n - 1].Some? && SafePath(items[n - 1].value.path) then {items[n - 1].value.path} else {}
  }

  function ItemFaults(item: Option<Artifact>, seen: set<string>): seq<Fault> {
    if item.None? then [InvalidArtifact]
    else
      (if !SafePath(item.value.path) then [UnsafePath]
       else if item.value.path in seen then [DuplicatePath]
       else [])
      + (if !Sha256(item.value.sha256) then [InvalidArtifactDigest] else [])
  }

  function ListFaults(items: seq<Option<Artifact>>, n: nat): seq<Fault>
    requires n <= |items|
  {
    if n == 0 then [] else ListFaults(items, n - 1) + ItemFaults(items[n - 1], Seen(items, n - 1))
  }

  function Faults(r: Receipt, model: string, manifest: string): seq<Fault> {
    HeaderFaults(r, model, manifest)
    + if r.artifacts.None? || r.artifacts.value == [] then [ArtifactsRequired]
      else ListFaults(r.artifacts.value, |r.artifacts.value|)
  }

  method ValidateReceipt(r: Receipt, model: string, manifest: string) returns (errors: seq<Fault>)
    ensures errors == Faults(r, model, manifest)
    ensures errors == [] <==> Acceptable(r, model, manifest)
  {
    FaultFreeIsAcceptable(r, model, manifest);
    errors := if r.status != "completed" then [StatusMismatch] else [];
    if r.finishReason != "stop" { errors := errors + [FinishReasonMismatch]; }
    if r.actualModel != model { errors := errors + [ModelMismatch]; }
    if r.manifest != manifest { errors := errors + [ManifestMismatch]; }
    if !Sha256(r.manifest) { errors := errors + [InvalidManifestDigest]; }
    assert errors == HeaderFaults(r, model, manifest);
    if r.artifacts.None? || r.artifacts.value == [] {
      return errors + [ArtifactsRequired];
    }
    var found := ValidateArtifacts(r.artifacts.value);
    return errors + found;
  }

  method ValidateArtifacts(items: seq<Option<Artifact>>) returns (errors: seq<Fault>)
    ensures errors == ListFaults(items, |items|)
  {
    errors := [];
    var seen: set<string> := {};
    for i := 0 to |items|
      invariant seen == Seen(items, i)
      invariant errors == ListFaults(items, i)
    {
      if items[i].None? {
        errors := errors + [InvalidArtifact];
        continue;
      }
      var item := items[i].value;
      if !SafePath(item.path) {
        errors := errors + [UnsafePath];
      } else if item.path in seen {
        errors := errors + [DuplicatePath];
      } else {
        seen := seen + {item.path};
      }
      if !Sha256(item.sha256) {
        errors := errors + [InvalidArtifactDigest];
      }
    }
  }

  lemma {:induction false} SeenMeaning(items: seq<Option<Artifact>>, n: nat, path: string)
    requires n <= |items|
    ensures path in Seen(items, n) <==>
            exists i :: 0 <= i < n && items[i].Some? && SafePath(path) && items[i].value.path == path
  {
    if n > 0 {
      SeenMeaning(items, n - 1, path);
    }
  }

  lemma AppendEmpty<T>(a: seq<T>, b: seq<T>)
    ensures a + b == [] <==> a == [] && b == []
  {
    if a + b == [] {
      assert |a| + |b| == 0;
    }
  }

  ghost predicate FaultFreeAt(items: seq<Option<Artifact>>, i: nat)
    requires i < |items|
  {
    ItemFaults(items[i], Seen(items, i)) == []
  }

  function Concat<T>(parts: seq<seq<T>>): seq<T> {
    if parts == [] then [] else Concat(parts[..|parts| - 1]) + parts[|parts| - 1]
  }

  function PartFaults(items: seq<Option<Artifact>>, n: nat): seq<seq<Fault>>
    requires n <= |items|
  {
    seq(n, i requires 0 <= i < n => ItemFaults(items[i], Seen(items, i)))
  }

  lemma {:induction false} ListIsConcat(items: seq<Option<Artifact>>, n: nat)
    requires n <= |items|
    ensures ListFaults(items, n) == Concat(PartFaults(items, n))
  {
    if n > 0 {
      ListIsConcat(items, n - 1);
      assert PartFaults(items, n)[..n - 1] == PartFaults(items, n - 1);
    }
  }

  lemma {:induction false} ConcatEmpty<T>(parts: seq<seq<T>>)
    ensures Concat(parts) == [] <==> forall i :: 0 <= i < |parts| ==> parts[i] == []
  {
    if parts != [] {
      ConcatEmpty(parts[..|parts| - 1]);
      AppendEmpty(Concat(parts[..|parts| - 1]), parts[|parts| - 1]);
    }
  }

  lemma ListFaultFree(items: seq<Option<Artifact>>, n: nat)
    requires n <= |items|
    ensures ListFaults(items, n) == [] <==> forall i :: 0 <= i < n ==> FaultFreeAt(items, i)
  {
    ListIsConcat(items, n);
    ConcatEmpty(PartFaults(items, n));
    assert forall i :: 0 <= i < n ==> (FaultFreeAt(items, i) <==> PartFaults(items, n)[i] == []);
  }

  ghost predicate ItemAcceptable(item: Option<Artifact>) {
    item.Some? && SafePath(item.value.path) && Sha256(item.value.sha256)
  }

  ghost predicate ItemsAcceptable(items: seq<Option<Artifact>>) {
    && items != []
    && (forall i :: 0 <= i < |items| ==> ItemAcceptable(items[i]))
    && (forall i, j :: 0 <= i < j < |items| ==> items[i].value.path != items[j].value.path)
  }

  lemma FaultFreeMeaning(items: seq<Option<Artifact>>, i: nat)
    requires i < |items|
    ensures FaultFreeAt(items, i) <==>
            && ItemAcceptable(items[i])
            && forall j :: 0 <= j < i && items[j].Some? && SafePath(items[j].value.path) ==>
                 items[j].value.path != items[i].value.path
  {
    if items[i].Some? {
      SeenMeaning(items, i, items[i].value.path);
    }
  }

  lemma ListFaultFreeIsAcceptable(items: seq<Option<Artifact>>)
    requires items != []
    ensures ListFaults(items, |items|) == [] <==> ItemsAcceptable(items)
  {
    ListFaultFree(items, |items|);
    if ItemsAcceptable(items) {
      forall i | 0 <= i < |items| ensures FaultFreeAt(items, i) {
        FaultFreeMeaning(items, i);
      }
    }
    if forall i :: 0 <= i < |items| ==> FaultFreeAt(items, i) {
      FaultFreeItems(items);
    }
  }

  lemma FaultFreeItems(items: seq<Option<Artifact>>)
    requires items != []
    requires forall i :: 0 <= i < |items| ==> FaultFreeAt(items, i)
    ensures ItemsAcceptable(items)
  {
    forall i | 0 <= i < |items| ensures ItemAcceptable(items[i]) {
      FaultFreeMeaning(items, i);
    }
    forall i, j | 0 <= i < j < |items| ensures items[i].value.path != items[j].value.path {
      FaultFreeMeaning(items, j);
    }
  }

  /** A receipt without a fault is exactly one with every header field right and a nonempty
      list of artifacts at safe, pairwise different paths. */
  lemma FaultFreeIsAcceptable(r: Receipt, model: string, manifest: string)
    ensures Faults(r, model, manifest) == [] <==> Acceptable(r, model, manifest)
  {
    if r.artifacts.Some? && r.artifacts.value != [] {
      ListFaultFreeIsAcceptable(r.artifacts.value);
    }
    AppendEmpty(HeaderFaults(r, model, manifest),
                if r.artifacts.None? || r.artifacts.value == [] then [ArtifactsRequired]
                else ListFaults(r.artifacts.value, |r.artifacts.value|));
  }
}
