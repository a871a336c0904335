/** The Song record of backend/models/song.js and the collection the database keeps for it. */
module SongModel {
  import opened Js

  type SongId = string

  /** A stored song. `title` and `author` are required strings, `length` (a number) and `cover`
      (a string) are optional, and the store stamps `createdAt` and `updatedAt` in milliseconds. */
  datatype Song = Song(
    id: SongId,
    title: string,
    author: string,
    length: Option<int>,
    cover: Option<string>,
    createdAt: int,
    updatedAt: int)

  /** What the schema's validators accept: a required string path must be present and not empty.
      They accept a document exactly when the routers' own check would accept a body carrying its
      four schema paths. */
  function Conforms(s: Song): (ok: bool)
    ensures ok <==> HasRequiredFields(SongBody(Some(s.title), Some(s.author), s.length, s.cover, map[]))
  {
    s.title != "" && s.author != ""
  }

  /** Every stored song passes the validators. */
  predicate AllConform(docs: map<SongId, Song>) {
    forall id :: id in docs ==> Conforms(docs[id])
  }

  /** A JSON request body as a song handler sees it: the four schema paths, each of which may be
      missing, and whatever other keys the client sent. */
  datatype SongBody = SongBody(
    title: Option<string>,
    author: Option<string>,
    length: Option<int>,
    cover: Option<string>,
    extra: map<string, string>)

  /** `!song.title || !song.author` fails: the check both song routers run before touching the
      store. A string is falsy when it is missing or empty. */
  function HasRequiredFields(body: SongBody): (ok: bool)
    ensures ok <==> body.title.Some? && body.title.value != "" && body.author.Some? && body.author.value != ""
  {
    Truthy(body.title) && Truthy(body.author)
  }

  /** `new Song(body)` with the store's `_id` and insertion time: only schema paths are kept, and a
      body that has its required fields yields a document the validators accept. */
  function NewDocument(id: SongId, body: SongBody, now: int): (s: Song)
    ensures s.id == id && s.createdAt == now && s.updatedAt == now
    ensures s.title == OrEmpty(body.title) && s.author == OrEmpty(body.author)
    ensures s.length == body.length && s.cover == body.cover
    ensures Conforms(s) <==> HasRequiredFields(body)
  {
    Song(id, OrEmpty(body.title), OrEmpty(body.author), body.length, body.cover, now, now)
  }

  /** Keys outside the schema never reach the stored document. */
  lemma NewDocumentDropsExtraKeys(id: SongId, b1: SongBody, b2: SongBody, now: int)
    requires b1.(extra := map[]) == b2.(extra := map[])
    ensures NewDocument(id, b1, now) == NewDocument(id, b2, now)
  {
    assert b1.title == b2.title && b1.author == b2.author;
  }

  /** The update `findByIdAndUpdate(id, body)` applies to one document: each schema path present in
      the body overwrites the stored value, the others and `createdAt` stay, `updatedAt` becomes `now`. */
  function ApplyUpdate(s: Song, body: SongBody, now: int): (t: Song)
    ensures t.id == s.id && t.createdAt == s.createdAt && t.updatedAt == now
    ensures t.title == (if body.title.Some? then body.title.value else s.title)
    ensures t.author == (if body.author.Some? then body.author.value else s.author)
    ensures t.length == (if body.length.Some? then body.length else s.length)
    ensures t.cover == (if body.cover.Some? then body.cover else s.cover)
    ensures HasRequiredFields(body) ==> Conforms(t)
    ensures body.title.None? && body.author.None? && body.length.None? && body.cover.None?
            ==> t == s.(updatedAt := now)
  {
    s.(title := if body.title.Some? then body.title.value else s.title,
       author := if body.author.Some? then body.author.value else s.author,
       length := if body.length.Some? then body.length else s.length,
       cover := if body.cover.Some? then body.cover else s.cover,
       updatedAt := now)
  }

  /** The songs collection. */
  class SongCollection {
    var docs: map<SongId, Song>

    /** Every document is filed under its own `_id`. */
    ghost predicate Valid()
      reads this
    {
      forall id :: id in docs ==> docs[id].id == id
    }

    constructor ()
      ensures Valid() && docs == map[]
    {
      docs := map[];
    }

    /** `doc.save()`: the validators run first, then the insert, which the unique `_id` index
        refuses for an id already taken; `fault` is a failure of the database call. */
    method Save(doc: Song, fault: bool) returns (ok: bool)
      requires Valid()
      modifies this
      ensures Valid()
      ensures ok <==> !fault && Conforms(doc) && doc.id !in old(docs)
      ensures docs == if ok then old(docs)[doc.id := doc] else old(docs)
    {
      ok := !fault && Conforms(doc) && doc.id !in docs;
      if ok {
        docs := docs[doc.id := doc];
      }
    }

    /** `findByIdAndUpdate(id, body)`: update validators do not run, and the answer is the document
        as it was BEFORE the update, or null when no document has that id. */
    method FindByIdAndUpdate(id: SongId, body: SongBody, now: int, fault: bool) returns (ok: bool, before: Option<Song>)
      requires Valid()
      modifies this
      ensures Valid()
      ensures ok == !fault
      ensures before == if ok && id in old(docs) then Some(old(docs)[id]) else None
    ensures before.Some? ==> before.value.id == id
      ensures docs == if ok && id in old(docs) then old(docs)[id := ApplyUpdate(old(docs)[id], body, now)] else old(docs)
    {
      ok, before := !fault, None;
      if ok && id in docs {
        before := Some(docs[id]);
        docs := docs[id := ApplyUpdate(docs[id], body, now)];
      }
    }

    /** `findByIdAndDelete(id)`: removes the document if there is one; an absent id is not an error. */
    method FindByIdAndDelete(id: SongId, fault: bool) returns (ok: bool)
      requires Valid()
      modifies this
      ensures Valid()
      ensures ok == !fault
      ensures docs == if ok then old(docs) - {id} else old(docs)
    {
      ok := !fault;
      if ok {
        docs := docs - {id};
      }
    }
  }
}
