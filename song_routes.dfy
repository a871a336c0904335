/** The handlers of backend/routes/song.js, mounted under `/songs`. Each store call may fail; the
    flag `fault` says whether it throws. */
module SongRoutes {
  import opened Js
  import opened SongModel
  import opened Http

  /** `GET /songs/`: every stored song. */
  function ListSongs(docs: map<SongId, Song>, fault: bool): (reply: Reply)
    ensures !fault ==> reply.Envelope? && reply.code == 200 && reply.success && reply.data == SongList(docs.Values)
    ensures fault ==> reply == Failure(500, "Server error")
  {
    if fault then Failure(500, "Server error") else Success(200, SongList(docs.Values))
  }

  /** `req.query.q || ''`: a missing or empty `q` becomes the empty pattern. */
  function SearchPattern(q: Option<string>): (pattern: string)
    ensures pattern == "" <==> !Truthy(q)
    ensures pattern != "" ==> q == Some(pattern)
  {
    if Truthy(q) then q.value else ""
  }

  /** `GET /songs/search`: the songs whose title the case-insensitive pattern matches. `matches`
      is the regular-expression test for a non-empty pattern; the empty pattern matches every title.
      The error path logs an unbound `error`, which throws again inside `catch`: nothing is sent. */
  function SearchSongs(docs: map<SongId, Song>, q: Option<string>, matches: (string, string) -> bool, fault: bool): (reply: Reply)
    ensures fault ==> reply == NoReply
    ensures !fault ==> reply.Envelope? && reply.code == 200 && reply.success && reply.data.SongList?
    ensures !fault ==> forall s :: s in reply.data.songs <==>
                          s in docs.Values && (SearchPattern(q) == "" || matches(SearchPattern(q), s.title))
  {
    var pattern := SearchPattern(q);
    if fault then NoReply
    else Success(200, SongList(set s | s in docs.Values && (pattern == "" || matches(pattern, s.title))))
  }

  /** Without a query, search answers exactly what the list route answers. */
  lemma SearchWithoutQueryListsAll(docs: map<SongId, Song>, matches: (string, string) -> bool)
    ensures SearchSongs(docs, None, matches, false) == ListSongs(docs, false)
    ensures SearchSongs(docs, Some(""), matches, false) == ListSongs(docs, false)
  {
    assert (set s | s in docs.Values && ("" == "" || matches("", s.title))) == docs.Values;
  }

  /** A failing store never yields the 500 envelope on the search route, unlike the list route. */
  lemma SearchFailureSendsNothing(docs: map<SongId, Song>, q: Option<string>, matches: (string, string) -> bool)
    ensures SearchSongs(docs, q, matches, true) != Failure(500, "Error searching songs")
    ensures ListSongs(docs, true) == Failure(500, "Server error")
  {
  }

  /** `GET /songs/:id`: the song, or `data: null` when no song has that id. */
  function GetSong(docs: map<SongId, Song>, id: SongId, fault: bool): (reply: Reply)
    ensures !fault ==> reply == Success(200, OneSong(if id in docs then Some(docs[id]) else None))
    ensures fault ==> reply == Failure(500, "Server error")
  {
    if fault then Failure(500, "Server error")
    else Success(200, OneSong(if id in docs then Some(docs[id]) else None))
  }

  /** `POST /songs/` once the guards have passed. The 400 check comes before the store is touched;
      `newId` is the `_id` the store assigns. */
  method PostSong(db: SongCollection, body: SongBody, newId: SongId, now: int, fault: bool) returns (reply: Reply)
    requires db.Valid()
    modifies db
    ensures db.Valid()
    ensures AllConform(old(db.docs)) ==> AllConform(db.docs)
    ensures !HasRequiredFields(body) ==> reply == Failure(400, "Required fields missing") && db.docs == old(db.docs)
    ensures HasRequiredFields(body) ==>
              var doc := NewDocument(newId, body, now);
              var saved := !fault && newId !in old(db.docs);
              && reply == (if saved then Success(201, OneSong(Some(doc))) else Failure(500, "Error while creating new song"))
              && db.docs == (if saved then old(db.docs)[newId := doc] else old(db.docs))
  {
    if !HasRequiredFields(body) {
      return Failure(400, "Required fields missing");
    }
    var doc := NewDocument(newId, body, now);
    var ok := db.Save(doc, fault);
    if ok {
      reply := Success(201, OneSong(Some(doc)));
    } else {
      reply := Failure(500, "Error while creating new song");
    }
  }

  /** `PUT /songs/:id` once the guards have passed. The answer carries the song as it was before the
      update; an id with no song gives `data: null` and changes nothing. */
  method PutSong(db: SongCollection, id: SongId, body: SongBody, now: int, fault: bool) returns (reply: Reply)
    requires db.Valid()
    modifies db
    ensures db.Valid()
    ensures AllConform(old(db.docs)) ==> AllConform(db.docs)
    ensures !HasRequiredFields(body) ==> reply == Failure(400, "Required fields missing") && db.docs == old(db.docs)
    ensures HasRequiredFields(body) && fault ==> reply == Failure(500, "Error while updating song") && db.docs == old(db.docs)
    ensures HasRequiredFields(body) && !fault ==>
              && reply == Success(200, OneSong(if id in old(db.docs) then Some(old(db.docs)[id]) else None))
              && db.docs == (if id in old(db.docs) then old(db.docs)[id := ApplyUpdate(old(db.docs)[id], body, now)] else old(db.docs))
  {
    if !HasRequiredFields(body) {
      return Failure(400, "Required fields missing");
    }
    var ok, before := db.FindByIdAndUpdate(id, body, now, fault);
    if ok {
      reply := Success(200, OneSong(before));
    } else {
      reply := Failure(500, "Error while updating song");
    }
  }

  /** `DELETE /songs/:id` once the guards have passed: 200 "Song deleted" whenever the store call
      returns, whether or not a song had that id; 404 only when the call throws. */
  method DeleteSong(db: SongCollection, id: SongId, fault: bool) returns (reply: Reply)
    requires db.Valid()
    modifies db
    ensures db.Valid()
    ensures AllConform(old(db.docs)) ==> AllConform(db.docs)
    ensures !fault ==> reply == Envelope(200, true, Some("Song deleted"), NoData) && db.docs == old(db.docs) - {id}
    ensures fault ==> reply == Failure(404, "Song not found") && db.docs == old(db.docs)
  {
    var ok := db.FindByIdAndDelete(id, fault);
    if ok {
      reply := Envelope(200, true, Some("Song deleted"), NoData);
    } else {
      reply := Failure(404, "Song not found");
    }
  }

  /** A song created by POST is then answered, field for field, by the list and get-by-id routes. */
  lemma CreatedSongIsServed(docs: map<SongId, Song>, id: SongId, body: SongBody, now: int)
    ensures var doc := NewDocument(id, body, now);
            var after := docs[id := doc];
            && doc in ListSongs(after, false).data.songs
            && GetSong(after, id, false) == Success(200, OneSong(Some(doc)))
    ensures HasRequiredFields(body) ==>
              var doc := NewDocument(id, body, now);
              doc.title == body.title.value && doc.author == body.author.value
              && doc.length == body.length && doc.cover == body.cover
  {
    var doc := NewDocument(id, body, now);
    assert docs[id := doc][id] == doc;
  }

  /** After a successful DELETE, get-by-id answers `data: null`. */
  lemma DeletedSongIsGone(docs: map<SongId, Song>, id: SongId)
    ensures GetSong(docs - {id}, id, false) == Success(200, OneSong(None))
  {
  }
}
