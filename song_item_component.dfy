/** frontend-react/src/components/SongItem.js: one song's card, with its edit form, its delete
    dialog and its play button. */
module SongItemComponent {
  import opened Js
  import opened SongsComponent
  import opened FormField

  /** `editData.length`: the song's own number until the input is edited (absent when the song
      has none), then the input's text. */
  datatype LengthValue = Missing | Num(n: int) | Typed(text: string)

  /** `editData`, as far as the card reads it back. */
  datatype EditData = EditData(title: string, author: string, length: LengthValue, cover: Option<string>)
  {
    /** `{ ...editData, [field]: e.target.value }`: the edited input takes the text, the others
        keep theirs. */
    function With(field: Field, value: string): (r: EditData)
      ensures r.title == (if field == Title then value else title)
      ensures r.author == (if field == Author then value else author)
      ensures r.length == (if field == Length then Typed(value) else length)
      ensures r.cover == (if field == Cover then Some(value) else cover)
    {
      match field
      case Title => this.(title := value)
      case Author => this.(author := value)
      case Length => this.(length := Typed(value))
      case Cover => this.(cover := Some(value))
    }
  }

  /** `{ ...song }`, the starting point of every edit. */
  function CopyOf(song: ClientSong): (e: EditData)
    ensures e.title == song.title && e.author == song.author && e.cover == song.cover
    ensures e.length == Missing <==> song.length.None?
    ensures song.length.Some? ==> e.length == Num(song.length.value)
  {
    EditData(song.title, song.author, if song.length.Some? then Num(song.length.value) else Missing, song.cover)
  }

  /** `Number(editData.length)`, with no `|| 0`: an absent length and text that is not a number
      both give `NaN` (`None`), while blank text gives 0. */
  function NumberOf(length: LengthValue): (n: Option<int>)
    ensures length.Missing? ==> n.None?
    ensures length.Num? ==> n == Some(length.n)
    ensures length.Typed? && Blank(length.text) ==> n == Some(0)
  {
    match length
    case Missing => None
    case Num(v) => Some(v)
    case Typed(t) => ToNumber(t)
  }

  /** What `handleSave` passes to `onUpdateSong` with the song's id: nothing when the title or
      the author is blank after `trim()`; otherwise exactly the four fields, the length as a
      number. */
  function Update(e: EditData): (u: Option<UpdateData>)
    ensures u.None? <==> Blank(e.title) || Blank(e.author)
    ensures u.Some? ==> u.value == UpdateData(e.title, e.author, NumberOf(e.length), e.cover)
  {
    TrimEmptyIffBlank(e.title);
    TrimEmptyIffBlank(e.author);
    if Trim(e.title) == "" || Trim(e.author) == "" then None
    else Some(UpdateData(e.title, e.author, NumberOf(e.length), e.cover))
  }

  /** Saving a card whose edits were cancelled (or never made) sends the song's own fields back. */
  lemma SaveOfCopySendsSong(song: ClientSong)
    requires !Blank(song.title) && !Blank(song.author)
    ensures Update(CopyOf(song)) == Some(UpdateData(song.title, song.author, song.length, song.cover))
  {
  }

  /** ... and the page's list, merging that answer, stays as it was, provided each song with that
      id in the list is this song. */
  lemma {:induction false} SaveOfCopyChangesNoSong(songs: seq<ClientSong>, song: ClientSong)
    requires !Blank(song.title) && !Blank(song.author)
    requires forall i :: 0 <= i < |songs| && songs[i].id == song.id ==> songs[i] == song
    ensures MergeById(songs, song.id, Update(CopyOf(song)).value) == songs
  {
    SaveOfCopySendsSong(song);
    var merged := MergeById(songs, song.id, Update(CopyOf(song)).value);
    forall i | 0 <= i < |songs| ensures merged[i] == songs[i] {
      if songs[i].id == song.id {
        assert songs[i] == song;
      }
    }
  }

  /** The call `handleSave` makes: `onUpdateSong(song._id, data)`. */
  datatype UpdateCall = UpdateCall(id: string, data: UpdateData)

  class SongItem {
    /** The `song` prop: the page passes the merged song again after a successful save. */
    var song: ClientSong
    var isEditing: bool
    var editData: EditData
    var openDeleteDialog: bool
    var isPlaying: bool

    constructor (song: ClientSong)
      ensures this.song == song && editData == CopyOf(song)
      ensures !isEditing && !openDeleteDialog && !isPlaying
    {
      this.song := song;
      isEditing := false;
      editData := CopyOf(song);
      openDeleteDialog := false;
      isPlaying := false;
    }

    /** A re-render with a new `song` prop for the same card (the page keys cards by `_id`): the
        prop changes, but `useState({ ...song })` does not run again, so the edit copy and every
        other piece of state stay as they were until the next cancel. */
    method ReceiveSong(s: ClientSong)
      requires s.id == song.id
      modifies this
      ensures song == s
      ensures isEditing == old(isEditing) && editData == old(editData)
      ensures openDeleteDialog == old(openDeleteDialog) && isPlaying == old(isPlaying)
    {
      song := s;
    }

    /** The edit button. */
    method StartEditing()
      modifies this
      ensures isEditing
      ensures editData == old(editData) && openDeleteDialog == old(openDeleteDialog) && isPlaying == old(isPlaying)
      ensures song == old(song)
    {
      isEditing := true;
    }

    /** An input of the edit form. */
    method EditField(field: Field, value: string)
      modifies this
      ensures editData == old(editData).With(field, value)
      ensures isEditing == old(isEditing) && openDeleteDialog == old(openDeleteDialog) && isPlaying == old(isPlaying)
      ensures song == old(song)
    {
      editData := editData.With(field, value);
    }

    /** The cancel button of the edit form: the edits are discarded. */
    method CancelEditing()
      modifies this
      ensures !isEditing && editData == CopyOf(song)
      ensures openDeleteDialog == old(openDeleteDialog) && isPlaying == old(isPlaying)
      ensures song == old(song)
    {
      isEditing := false;
      editData := CopyOf(song);
    }

    /** `handleSave`: with a blank title or author nothing happens and editing goes on; otherwise
        one call to `onUpdateSong` and editing ends. `editData` keeps the edits either way. */
    method Save() returns (call: Option<UpdateCall>)
      modifies this
      ensures Update(old(editData)).None? ==> call.None? && isEditing == old(isEditing)
      ensures Update(old(editData)).Some? ==> call == Some(UpdateCall(song.id, Update(old(editData)).value)) && !isEditing
      ensures editData == old(editData) && openDeleteDialog == old(openDeleteDialog) && isPlaying == old(isPlaying)
      ensures song == old(song)
    {
      var u := Update(editData);
      if u.None? {
        return None;
      }
      call := Some(UpdateCall(song.id, u.value));
      isEditing := false;
    }

    /** The delete button. */
    method OpenDeleteDialog()
      modifies this
      ensures openDeleteDialog
      ensures isEditing == old(isEditing) && editData == old(editData) && isPlaying == old(isPlaying)
      ensures song == old(song)
    {
      openDeleteDialog := true;
    }

    /** The dialog's cancel button, or closing the dialog: no call is made. */
    method CloseDeleteDialog()
      modifies this
      ensures !openDeleteDialog
      ensures isEditing == old(isEditing) && editData == old(editData) && isPlaying == old(isPlaying)
      ensures song == old(song)
    {
      openDeleteDialog := false;
    }

    /** The dialog's delete button: `onDeleteSong(song._id)`, then the dialog closes. */
    method ConfirmDelete() returns (id: string)
      modifies this
      ensures id == song.id && !openDeleteDialog
      ensures isEditing == old(isEditing) && editData == old(editData) && isPlaying == old(isPlaying)
      ensures song == old(song)
    {
      id := song.id;
      openDeleteDialog := false;
    }

    /** The play button. */
    method TogglePlay()
      modifies this
      ensures isPlaying == !old(isPlaying)
      ensures isEditing == old(isEditing) && editData == old(editData) && openDeleteDialog == old(openDeleteDialog)
      ensures song == old(song)
    {
      isPlaying := !isPlaying;
    }
  }
}
