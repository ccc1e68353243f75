/** JSON merge patch as in section 2 of RFC 7396, and the patch that rewrites pod annotations. */
module MergePatch {
  import opened PodHash

  /** Annotation values: a formatted time, a digest, or any other text. Formatted times parse back to themselves. */
  datatype Text = Stamp(time: int) | Hash(digest: Digest) | Plain(chars: string)

  const EMPTY_TEXT := Plain("")

  datatype Json =
    | Null
    | Bool(b: bool)
    | Number(n: int)
    | Str(text: Text)
    | Arr(items: seq<Json>)
    | Obj(fields: map<string, Json>)

  function Merge(target: Json, patch: Json): Json
    decreases patch
  {
    if !patch.Obj? then patch
    else
      var base := if target.Obj? then target.fields else map[];
      Obj(map name | name in base.Keys + patch.fields.Keys && !(name in patch.fields && patch.fields[name].Null?) ::
            if name in patch.fields then Merge(if name in base then base[name] else Null, patch.fields[name])
            else base[name])
  }

  type Annotations = map<string, Text>

  /** The annotations after a patch: an empty value removes its key, any other value is written. */
  function Patched(ann: Annotations, set_: Annotations): Annotations {
    map key | key in ann.Keys + set_.Keys && !(key in set_ && set_[key] == EMPTY_TEXT) ::
      if key in set_ then set_[key] else ann[key]
  }

  function Values(set_: Annotations): map<string, Json> {
    map key | key in set_ :: if set_[key] == EMPTY_TEXT then Null else Str(set_[key])
  }

  function PatchBody(set_: Annotations): Json {
    Obj(map["metadata" := Obj(map["annotations" := Obj(Values(set_))])])
  }

  method BuildPatch(set_: Annotations) returns (body: Json)
    ensures body == PatchBody(set_)
  {
    var ann: map<string, Json> := map[];
    var todo := set_.Keys;
    while todo != {}
      invariant todo <= set_.Keys && ann.Keys == set_.Keys - todo
      invariant forall key | key in ann :: ann[key] == if set_[key] == EMPTY_TEXT then Null else Str(set_[key])
      decreases todo
    {
      var key :| key in todo;
      ann := ann[key := if set_[key] == EMPTY_TEXT then Null else Str(set_[key])];
      todo := todo - {key};
    }
    assert ann == Values(set_);
    body := Obj(map["metadata" := Obj(map["annotations" := Obj(ann)])]);
  }

  /** A pod document whose annotations, if it has any, are exactly these. */
  ghost predicate HasAnnotations(doc: Json, ann: Annotations) {
    && doc.Obj? && "metadata" in doc.fields && doc.fields["metadata"].Obj?
    && var meta := doc.fields["metadata"].fields;
       if "annotations" in meta then meta["annotations"] == Obj(map key | key in ann :: Str(ann[key]))
       else ann == map[]
  }

  /** Merging the patch into a pod document rewrites the annotations and nothing else. */
  lemma MergeRewritesAnnotations(doc: Json, ann: Annotations, set_: Annotations)
    requires HasAnnotations(doc, ann)
    ensures var merged := Merge(doc, PatchBody(set_));
            && HasAnnotations(merged, Patched(ann, set_))
            && merged.fields.Keys == doc.fields.Keys
            && (forall name | name in doc.fields && name != "metadata" :: merged.fields[name] == doc.fields[name])
            && (forall name | name in doc.fields["metadata"].fields && name != "annotations" ::
                  name in merged.fields["metadata"].fields
                  && merged.fields["metadata"].fields[name] == doc.fields["metadata"].fields[name])
  {
    var meta := doc.fields["metadata"];
    var old_ := if "annotations" in meta.fields then meta.fields["annotations"] else Null;
    MergeValues(old_, ann, set_);
    var inner := Obj(map["annotations" := Obj(Values(set_))]);
    var mergedMeta := Merge(meta, inner);
    assert mergedMeta.fields["annotations"] == Merge(old_, Obj(Values(set_)));
    assert Merge(doc, PatchBody(set_)).fields["metadata"] == mergedMeta;
  }

  lemma MergeValues(old_: Json, ann: Annotations, set_: Annotations)
    requires old_ == Obj(map key | key in ann :: Str(ann[key])) || (old_ == Null && ann == map[])
    ensures var now := Patched(ann, set_);
            Merge(old_, Obj(Values(set_))) == Obj(map key | key in now :: Str(now[key]))
  {
  }
}
