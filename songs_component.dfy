/** frontend-react/src/components/Songs.js: the library page's state (the song list, the banner
    message and its type, the search box) and how each answer from the server changes it. */
module SongsComponent {
  import opened Js

  /** A song as the page holds it (the JSON the server sends; `_id` is `id`). */
  datatype ClientSong = ClientSong(id: string, title: string, author: string, length: Option<int>, cover: Option<string>)

  /** The object an edit sends and merges: exactly the four editable fields. A `length` of `None`
      is the `NaN` that `Number` gives for text that is not a number. */
  datatype UpdateData = UpdateData(title: string, author: string, length: Option<int>, cover: Option<string>)

  /** What `fetch` and `response.json()` give a handler: a thrown error's `message`, or the
      parsed envelope's `success`, `data` and `message`. */
  datatype Answer<T> = Threw(error: string) | Answered(success: bool, data: T, message: Option<string>)

  predicate Succeeded<T>(answer: Answer<T>) {
    answer.Answered? && answer.success
  }

  /** The banner text after a failure: the thrown error's message, else the server's message when
      truthy, else the handler's default. */
  function FailureText<T>(answer: Answer<T>, default: string): (text: string)
    ensures answer.Threw? ==> text == answer.error
    ensures answer.Answered? && Truthy(answer.message) ==> text == answer.message.value
    ensures answer.Answered? && !Truthy(answer.message) ==> text == default
  {
    match answer
    case Threw(e) => e
    case Answered(_, _, m) => if Truthy(m) then m.value else default
  }

  /** `{ ...song, ...updatedData }`. */
  function Merge(s: ClientSong, u: UpdateData): ClientSong {
    ClientSong(s.id, u.title, u.author, u.length, u.cover)
  }

  /** `songs.map(song => song._id === id ? { ...song, ...updatedData } : song)`. */
  function MergeById(songs: seq<ClientSong>, id: string, u: UpdateData): (r: seq<ClientSong>)
    ensures |r| == |songs|
    ensures forall i :: 0 <= i < |songs| ==> r[i].id == songs[i].id
    ensures forall i :: 0 <= i < |songs| && songs[i].id == id ==>
              r[i].title == u.title && r[i].author == u.author && r[i].length == u.length && r[i].cover == u.cover
    ensures forall i :: 0 <= i < |songs| && songs[i].id != id ==> r[i] == songs[i]
  {
    Map(songs, (s: ClientSong) => if s.id == id then Merge(s, u) else s)
  }

  /** `songs.filter(song => song._id !== id)`. */
  function RemoveById(songs: seq<ClientSong>, id: string): (r: seq<ClientSong>)
    ensures forall s :: s in r <==> s in songs && s.id != id
    ensures forall s: ClientSong :: s.id != id ==> multiset(r)[s] == multiset(songs)[s]
  {
    Filter(songs, (s: ClientSong) => s.id != id)
  }

  /** Whether a song shows for the search box's text: its title or its author contains the text,
      ignoring the case of ASCII letters. */
  predicate Matches(s: ClientSong, query: string) {
    Includes(Lower(s.title), Lower(query)) || Includes(Lower(s.author), Lower(query))
  }

  /** `filteredSongs`. */
  function Visible(songs: seq<ClientSong>, query: string): (r: seq<ClientSong>)
    ensures forall s :: s in r <==> s in songs && Matches(s, query)
  {
    Filter(songs, (s: ClientSong) => Matches(s, query))
  }

  /** Updating a song twice with the same data is the same as updating it once. */
  lemma MergeByIdIdempotent(songs: seq<ClientSong>, id: string, u: UpdateData)
    ensures MergeById(MergeById(songs, id, u), id, u) == MergeById(songs, id, u)
  {
  }

  /** Deleting a song discards any earlier update to it: the rest of the list is as if the update
      had never happened. */
  lemma {:induction false} RemoveAfterMerge(songs: seq<ClientSong>, id: string, u: UpdateData)
    ensures RemoveById(MergeById(songs, id, u), id) == RemoveById(songs, id)
  {
    if songs != [] {
      var merged := MergeById(songs, id, u);
      RemoveAfterMerge(songs[1..], id, u);
      assert merged[1..] == MergeById(songs[1..], id, u);
      assert merged[0].id == songs[0].id;
      if songs[0].id != id {
        assert merged[0] == songs[0];
      }
    }
  }

  /** Deleting keeps the remaining songs in their order. */
  lemma RemoveKeepsOrder(songs: seq<ClientSong>, id: string)
    ensures IsSubsequence(RemoveById(songs, id), songs)
  {
    FilterKeepsOrder(songs, (s: ClientSong) => s.id != id);
  }

  /** Deleting an id no song has leaves the list as it was. */
  lemma RemoveAbsentId(songs: seq<ClientSong>, id: string)
    requires forall i :: 0 <= i < |songs| ==> songs[i].id != id
    ensures RemoveById(songs, id) == songs
  {
    FilterAll(songs, (s: ClientSong) => s.id != id);
  }

  /** With an empty search box every song shows, in list order. */
  lemma EmptyQueryShowsAll(songs: seq<ClientSong>)
    ensures Visible(songs, "") == songs
  {
    forall i | 0 <= i < |songs| ensures Matches(songs[i], "") {
      IncludesEmpty(Lower(songs[i].title));
    }
    FilterAll(songs, (s: ClientSong) => Matches(s, ""));
  }

  /** The shown songs keep the list's order. */
  lemma VisibleKeepsOrder(songs: seq<ClientSong>, query: string)
    ensures IsSubsequence(Visible(songs, query), songs)
  {
    FilterKeepsOrder(songs, (s: ClientSong) => Matches(s, query));
  }

  /** Typing the query in upper or lower case shows the same songs. */
  lemma QueryCaseIgnored(s: ClientSong, query: string)
    ensures Matches(s, query) <==> Matches(s, Lower(query))
  {
    LowerIdempotent(query);
  }

  /** What the page does when the authentication state changes. */
  datatype Effect = Wait | RedirectToLogin | LoadSongs

  /** The effect on `[isAuthenticated, loading]`: nothing while loading, then a redirect for an
      unauthenticated user (and no load), else a load. */
  function OnAuthState(loading: bool, isAuthenticated: bool): (e: Effect)
    ensures e == LoadSongs <==> !loading && isAuthenticated
    ensures e == RedirectToLogin <==> !loading && !isAuthenticated
  {
    if loading then Wait else if !isAuthenticated then RedirectToLogin else LoadSongs
  }

  class Songs {
    var songs: seq<ClientSong>
    var message: string
    var messageType: string
    var searchQuery: string

    constructor ()
      ensures songs == [] && message == "" && messageType == "" && searchQuery == ""
    {
      songs := [];
      message := "";
      messageType := "";
      searchQuery := "";
    }

    /** The songs the page lists. */
    function Shown(): seq<ClientSong>
      reads this
    {
      Visible(songs, searchQuery)
    }

    /** Typing in the search box. */
    method SetSearchQuery(query: string)
      modifies this
      ensures searchQuery == query
      ensures songs == old(songs) && message == old(message) && messageType == old(messageType)
      ensures query == "" ==> Shown() == songs
    {
      searchQuery := query;
      EmptyQueryShowsAll(songs);
    }

    /** `loadSongs`: a successful answer replaces the whole list and leaves the banner alone; a
        failure keeps the list and shows an error. */
    method LoadSongs(answer: Answer<seq<ClientSong>>)
      modifies this
      ensures searchQuery == old(searchQuery)
      ensures Succeeded(answer) ==> songs == answer.data && message == old(message) && messageType == old(messageType)
      ensures !Succeeded(answer) ==>
                songs == old(songs) && message == FailureText(answer, "Failed to load songs") && messageType == "error"
    {
      match answer
      case Threw(e) =>
        message := e;
        messageType := "error";
      case Answered(success, data, m) =>
        if success {
          songs := data;
        } else {
          message := if Truthy(m) then m.value else "Failed to load songs";
          messageType := "error";
        }
    }

    /** `handleAddSong`: the created song goes at the end, but only when the answer is a success
        that carries it. */
    method HandleAddSong(answer: Answer<Option<ClientSong>>)
      modifies this
      ensures searchQuery == old(searchQuery)
      ensures Succeeded(answer) && answer.data.Some? ==>
                songs == old(songs) + [answer.data.value] && message == "Song added successfully" && messageType == "success"
      ensures !(Succeeded(answer) && answer.data.Some?) ==>
                songs == old(songs) && message == FailureText(answer, "Failed to add song") && messageType == "error"
    {
      match answer
      case Threw(e) =>
        message := e;
        messageType := "error";
      case Answered(success, data, m) =>
        if success && data.Some? {
          songs := songs + [data.value];
          message := "Song added successfully";
          messageType := "success";
        } else {
          message := if Truthy(m) then m.value else "Failed to add song";
          messageType := "error";
        }
    }

    /** `handleUpdateSong`: on success every song with the id takes the sent fields. */
    method HandleUpdateSong<T>(id: string, u: UpdateData, answer: Answer<T>)
      modifies this
      ensures searchQuery == old(searchQuery)
      ensures Succeeded(answer) ==>
                songs == MergeById(old(songs), id, u) && message == "Song updated successfully" && messageType == "success"
      ensures !Succeeded(answer) ==>
                songs == old(songs) && message == FailureText(answer, "Failed to update song") && messageType == "error"
    {
      match answer
      case Threw(e) =>
        message := e;
        messageType := "error";
      case Answered(success, _, m) =>
        if success {
          songs := MergeById(songs, id, u);
          message := "Song updated successfully";
          messageType := "success";
        } else {
          message := if Truthy(m) then m.value else "Failed to update song";
          messageType := "error";
        }
    }

    /** `handleDeleteSong`: on success every song with the id leaves the list. */
    method HandleDeleteSong<T>(id: string, answer: Answer<T>)
      modifies this
      ensures searchQuery == old(searchQuery)
      ensures Succeeded(answer) ==>
                songs == RemoveById(old(songs), id) && message == "Song deleted successfully" && messageType == "success"
      ensures Succeeded(answer) ==> forall s :: s in Shown() ==> s.id != id
      ensures !Succeeded(answer) ==>
                songs == old(songs) && message == FailureText(answer, "Failed to delete song") && messageType == "error"
    {
      match answer
      case Threw(e) =>
        message := e;
        messageType := "error";
      case Answered(success, _, m) =>
        if success {
          songs := RemoveById(songs, id);
          message := "Song deleted successfully";
          messageType := "success";
        } else {
          message := if Truthy(m) then m.value else "Failed to delete song";
          messageType := "error";
        }
    }
  }
}
