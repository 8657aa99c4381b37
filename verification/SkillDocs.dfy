/** The skill document store (modules/storage/adapters/gcs_skill_document_store.py): a document kept as two
    objects, `SKILL.md` (YAML front matter and body) and, when there is such text, `COMPOSER.md`. */
module SkillDocs {
  import opened Basics
  import opened Text

  /** A UUID by its canonical text. */
  type Id = string

  datatype Document = Document(name: string, description: string, instructions: string, composer: string)
  datatype Meta = Meta(name: string, description: string)

  /** `yaml.safe_dump` of the front matter; `yaml.safe_load` of a text with the two defaults, or `None` where
      it raises or the result is no mapping. */
  datatype Yaml = Yaml(dump: Meta -> string, load: string -> Option<Meta>)

  datatype Loaded = Missing | Invalid | Found(document: Document)

  const FENCE: string := ['-', '-', '-', '\n']
  const MARKER: string := ['\n', '-', '-', '-', '\n']

  // ---------------------------------------------------------------- one document as text

  function RStripNewlines(s: string): string {
    if s != "" && s[|s| - 1] == '\n' then RStripNewlines(s[..|s| - 1]) else s
  }

  function Newlines(n: nat): string {
    seq(n, _ => '\n')
  }

  /** Exactly the final newlines are taken away. */
  lemma {:induction false} StripsFinalNewlines(s: string) returns (n: nat)
    ensures s == RStripNewlines(s) + Newlines(n)
    ensures RStripNewlines(s) != "" ==> RStripNewlines(s)[|RStripNewlines(s)| - 1] != '\n'
    decreases |s|
  {
    n := 0;
    if s != "" && s[|s| - 1] == '\n' {
      var m := StripsFinalNewlines(s[..|s| - 1]);
      n := m + 1;
      assert Newlines(n) == Newlines(m) + ['\n'];
      assert s == s[..|s| - 1] + ['\n'];
    }
  }

  function Front(doc: Document, yaml: Yaml): string {
    RStripNewlines(yaml.dump(Meta(doc.name, doc.description)))
  }

  /** `_serialize`: fence, front matter, newline and fence, body. */
  function Serialized(doc: Document, yaml: Yaml): string {
    FENCE + (Front(doc, yaml) + (MARKER + doc.instructions))
  }

  /** `_deserialize`. */
  function Deserialized(raw: string, composer: string, yaml: Yaml): Loaded {
    if !(FENCE <= raw) then Invalid
    else
      var after := raw[|FENCE|..];
      match Find(after, MARKER, 0)
      case None => Invalid
      case Some(i) =>
        match yaml.load(after[..i])
        case None => Invalid
        case Some(meta) => Found(Document(meta.name, meta.description, after[i + |MARKER|..], composer))
  }

  /** A line `---` begins behind position `i`. */
  predicate FenceLineAt(s: string, i: nat) {
    && i + 4 <= |s| && s[i] == '\n' && s[i + 1] == '-' && s[i + 2] == '-' && s[i + 3] == '-'
    && (i + 4 == |s| || s[i + 4] == '\n')
  }

  /** No line after the first consists of `---` alone. */
  ghost predicate NoFenceLine(s: string) {
    forall i: nat :: !FenceLineAt(s, i)
  }

  lemma MarkerAt(s: string, i: nat)
    ensures OccursAt(s, MARKER, i) <==>
              && i + 5 <= |s| && s[i] == '\n' && s[i + 1] == '-' && s[i + 2] == '-' && s[i + 3] == '-'
              && s[i + 4] == '\n'
  {
    if i + 5 <= |s| {
      var w := s[i..i + 5];
      assert w == [s[i], s[i + 1], s[i + 2], s[i + 3], s[i + 4]];
      assert w == MARKER ==> w[0] == '\n' && w[1] == '-' && w[2] == '-' && w[3] == '-' && w[4] == '\n';
    }
  }

  /** Before the closing fence, exactly the fence lines of the front matter are found. */
  lemma MarkerInFront(front: string, body: string, i: nat)
    requires i < |front|
    ensures OccursAt(front + (MARKER + body), MARKER, i) <==> FenceLineAt(front, i)
  {
    var all := front + (MARKER + body);
    MarkerAt(all, i);
    forall k | 0 <= k < |all| ensures all[k] == if k < |front| then front[k] else (MARKER + body)[k - |front|] {}
    assert (MARKER + body)[0] == '\n' && (MARKER + body)[1] == '-' && (MARKER + body)[2] == '-'
        && (MARKER + body)[3] == '-';
  }

  lemma MarkerBehindFront(front: string, body: string)
    ensures OccursAt(front + (MARKER + body), MARKER, |front|)
  {
    var all := front + (MARKER + body);
    assert all[|front|..] == MARKER + body;
    assert all[|front|..|front| + |MARKER|] == (MARKER + body)[..|MARKER|];
  }

  /** The closing fence is found behind the front matter, whatever the body, exactly when the front matter has
      no fence line; the body may contain any. */
  lemma FenceIsFoundExactly(front: string, body: string)
    ensures Find(front + (MARKER + body), MARKER, 0) == Some(|front|) <==> NoFenceLine(front)
  {
    var all := front + (MARKER + body);
    MarkerBehindFront(front, body);
    forall i: nat | i < |front| ensures OccursAt(all, MARKER, i) <==> FenceLineAt(front, i) {
      MarkerInFront(front, body, i);
    }
    if NoFenceLine(front) {
      assert forall i: nat :: i < |front| ==> !OccursAt(all, MARKER, i);
    } else {
      var i: nat :| FenceLineAt(front, i);
      assert OccursAt(all, MARKER, i);
    }
  }

  /** YAML reads back what it wrote, without its final newlines, and writes no line that is only `---`. */
  ghost predicate Faithful(yaml: Yaml) {
    forall meta: Meta ::
      var text := RStripNewlines(yaml.dump(meta));
      yaml.load(text) == Some(meta) && NoFenceLine(text)
  }

  lemma SplitsBack(front: string, body: string, composer: string, yaml: Yaml)
    requires NoFenceLine(front)
    ensures Deserialized(FENCE + (front + (MARKER + body)), composer, yaml) ==
              match yaml.load(front)
              case None => Invalid
              case Some(meta) => Found(Document(meta.name, meta.description, body, composer))
  {
    var after := front + (MARKER + body);
    FenceIsFoundExactly(front, body);
    assert (FENCE + after)[|FENCE|..] == after;
    assert after[..|front|] == front;
    assert after[|front| + |MARKER|..] == (MARKER + body)[|MARKER|..] == body;
  }

  /** A document comes back from its text, for any body, fences in it included. */
  lemma DocumentRoundTrip(doc: Document, yaml: Yaml)
    requires Faithful(yaml)
    ensures Deserialized(Serialized(doc, yaml), doc.composer, yaml) == Found(doc)
  {
    var meta := Meta(doc.name, doc.description);
    assert yaml.load(RStripNewlines(yaml.dump(meta))) == Some(meta) && NoFenceLine(RStripNewlines(yaml.dump(meta)));
    SplitsBack(Front(doc, yaml), doc.instructions, doc.composer, yaml);
  }

  /** The text opens with a fence line, and the first fence line after that parts it into these two. */
  ghost predicate Parts(raw: string, front: string, body: string) {
    raw == "---\n" + (front + ("\n---\n" + body)) && NoFenceLine(front)
  }

  /** What is read, of any text at all: a document if and only if the text has both fences and YAML reads what is
      between them; the rest is the instructions. Everything else is invalid. */
  lemma DeserializesExactly(raw: string, composer: string, yaml: Yaml, doc: Document)
    ensures Deserialized(raw, composer, yaml) != Missing
    ensures Deserialized(raw, composer, yaml) == Found(doc)
       <==> && doc.composer == composer
            && exists front :: Parts(raw, front, doc.instructions)
                               && yaml.load(front) == Some(Meta(doc.name, doc.description))
  {
    assert FENCE == "---\n" && MARKER == "\n---\n";
    if FENCE <= raw && Find(raw[|FENCE|..], MARKER, 0).Some? {
      var after := raw[|FENCE|..];
      var i := Find(after, MARKER, 0).value;
      var front, body := after[..i], after[i + |MARKER|..];
      assert OccursAt(after, MARKER, i);
      assert after == front + (MARKER + body) && raw == FENCE + after;
      FenceIsFoundExactly(front, body);
      assert Parts(raw, front, body);
    }
    forall front | Parts(raw, front, doc.instructions)
      ensures Deserialized(raw, composer, yaml)
           == match yaml.load(front)
              case None => Invalid
              case Some(meta) => Found(Document(meta.name, meta.description, doc.instructions, composer))
    {
      SplitsBack(front, doc.instructions, composer, yaml);
    }
  }

  // ---------------------------------------------------------------- two objects per document

  const PREFIX: string := "skills/"
  const SKILL_NAME: string := "/SKILL.md"
  const COMPOSER_NAME: string := "/COMPOSER.md"

  function Key(id: Id): string {
    PREFIX + (id + SKILL_NAME)
  }

  function ComposerKey(id: Id): string {
    PREFIX + (id + COMPOSER_NAME)
  }

  lemma Inner(prefix: string, id: Id, suffix: string)
    ensures (prefix + (id + suffix))[|prefix|..] == id + suffix
    ensures (id + suffix)[..|id|] == id
  {}

  lemma KeysDiffer(a: Id, b: Id)
    ensures Key(a) == Key(b) ==> a == b
    ensures ComposerKey(a) == ComposerKey(b) ==> a == b
    ensures Key(a) != ComposerKey(b)
  {
    Inner(PREFIX, a, SKILL_NAME);
    Inner(PREFIX, b, SKILL_NAME);
    Inner(PREFIX, a, COMPOSER_NAME);
    Inner(PREFIX, b, COMPOSER_NAME);
    LastCharacters(PREFIX + a, SKILL_NAME);
    LastCharacters(PREFIX + b, COMPOSER_NAME);
    assert Key(a) == (PREFIX + a) + SKILL_NAME && ComposerKey(b) == (PREFIX + b) + COMPOSER_NAME;
  }

  lemma LastCharacters(s: string, suffix: string)
    requires |suffix| >= 4
    ensures (s + suffix)[|s + suffix| - 4] == suffix[|suffix| - 4]
  {}

  type Objects = map<string, string>

  function Saved(objects: Objects, id: Id, doc: Document, yaml: Yaml): Objects {
    var upserted := objects[Key(id) := Serialized(doc, yaml)];
    if doc.composer != "" then upserted[ComposerKey(id) := doc.composer] else upserted - {ComposerKey(id)}
  }

  function Deleted(objects: Objects, id: Id): Objects {
    objects - {Key(id), ComposerKey(id)}
  }

  function LoadedFrom(objects: Objects, id: Id, yaml: Yaml): Loaded {
    if Key(id) !in objects then Missing
    else Deserialized(objects[Key(id)], if ComposerKey(id) in objects then objects[ComposerKey(id)] else "", yaml)
  }

  /** The object storage port: absent keys are reported, not created. */
  class ObjectStorage {
    var objects: Objects

    constructor ()
      ensures objects == map[]
    {
      objects := map[];
    }

    method Upload(key: string, content: string)
      modifies this
      ensures objects == old(objects)[key := content]
    {
      objects := objects[key := content];
    }

    method Download(key: string) returns (content: Option<string>)
      ensures content == if key in objects then Some(objects[key]) else None
    {
      content := if key in objects then Some(objects[key]) else None;
    }

    method Delete(key: string) returns (found: bool)
      modifies this
      ensures found == (key in old(objects)) && objects == old(objects) - {key}
    {
      found := key in objects;
      objects := objects - {key};
    }
  }

  class SkillDocumentStore {
    const storage: ObjectStorage
    const yaml: Yaml

    constructor (storage: ObjectStorage, yaml: Yaml)
      ensures this.storage == storage && this.yaml == yaml
    {
      this.storage, this.yaml := storage, yaml;
    }

    method Save(id: Id, doc: Document)
      modifies storage
      ensures storage.objects == Saved(old(storage.objects), id, doc, yaml)
    {
      storage.Upload(Key(id), Serialized(doc, yaml));
      if doc.composer != "" {
        storage.Upload(ComposerKey(id), doc.composer);
      } else {
        var _ := storage.Delete(ComposerKey(id));
      }
    }

    method Load(id: Id) returns (loaded: Loaded)
      ensures loaded == LoadedFrom(storage.objects, id, yaml)
    {
      var raw := storage.Download(Key(id));
      if raw.None? {
        return Missing;
      }
      var composer := storage.Download(ComposerKey(id));
      loaded := Deserialized(raw.value, if composer.Some? then composer.value else "", yaml);
    }

    method Delete(id: Id)
      modifies storage
      ensures storage.objects == Deleted(old(storage.objects), id)
    {
      var _ := storage.Delete(Key(id));
      var _ := storage.Delete(ComposerKey(id));
    }
  }

  // ---------------------------------------------------------------- the store is a map

  datatype Op = SaveOp(id: Id, doc: Document) | DeleteOp(id: Id)

  function Run(ops: seq<Op>, yaml: Yaml): Objects
    decreases |ops|
  {
    if ops == [] then map[]
    else
      var before := Run(ops[..|ops| - 1], yaml);
      match ops[|ops| - 1]
      case SaveOp(id, doc) => Saved(before, id, doc, yaml)
      case DeleteOp(id) => Deleted(before, id)
  }

  function RunOnMap(ops: seq<Op>): map<Id, Document>
    decreases |ops|
  {
    if ops == [] then map[]
    else
      var before := RunOnMap(ops[..|ops| - 1]);
      match ops[|ops| - 1]
      case SaveOp(id, doc) => before[id := doc]
      case DeleteOp(id) => before - {id}
  }

  function Lookup(m: map<Id, Document>, id: Id): Loaded {
    if id in m then Found(m[id]) else Missing
  }

  /** A save is seen under its own id, and nowhere else. */
  lemma SaveThenLoad(objects: Objects, id: Id, doc: Document, yaml: Yaml, other: Id)
    requires Faithful(yaml)
    ensures LoadedFrom(Saved(objects, id, doc, yaml), other, yaml)
         == if other == id then Found(doc) else LoadedFrom(objects, other, yaml)
  {
    KeysDiffer(id, other);
    KeysDiffer(other, id);
    KeysDiffer(id, id);
    if other == id { DocumentRoundTrip(doc, yaml); }
  }

  lemma DeleteThenLoad(objects: Objects, id: Id, yaml: Yaml, other: Id)
    ensures LoadedFrom(Deleted(objects, id), other, yaml)
         == if other == id then Missing else LoadedFrom(objects, other, yaml)
  {
    KeysDiffer(id, other);
    KeysDiffer(other, id);
  }

  /** Over any sequence of saves and deletes, loading gives exactly what a plain map would: the last document
      saved under the id, its composer text included, or nothing. */
  lemma {:induction false} StoreIsAMap(ops: seq<Op>, yaml: Yaml, id: Id)
    requires Faithful(yaml)
    ensures LoadedFrom(Run(ops, yaml), id, yaml) == Lookup(RunOnMap(ops), id)
    decreases |ops|
  {
    if ops != [] {
      var before := ops[..|ops| - 1];
      StoreIsAMap(before, yaml, id);
      match ops[|ops| - 1] {
        case SaveOp(at, doc) => SaveThenLoad(Run(before, yaml), at, doc, yaml, id);
        case DeleteOp(at) => DeleteThenLoad(Run(before, yaml), at, yaml, id);
      }
    }
  }
}
