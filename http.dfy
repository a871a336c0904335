/** The parts of an HTTP exchange the handlers produce. */
module Http {
  import opened Js
  import opened SongModel

  datatype Method = Get | Post | Put | Delete

  /** The `data` (or `token`) member of a JSON envelope. */
  datatype Data =
    | NoData
    | OneSong(song: Option<Song>)
    | SongList(songs: set<Song>)
    | TokenData(token: string)

  datatype Reply =
    | Status(code: int)                                                    // res.sendStatus(code)
    | Envelope(code: int, success: bool, message: Option<string>, data: Data)  // res.status(code).json({...})
    | File(name: string)                                                   // res.sendFile(name)
    | Text(text: string)                                                   // res.send(text)
    | NotFound                                                             // no route matched
    | NoReply                                                              // the handler threw; nothing is sent

  function Failure(code: int, message: string): Reply {
    Envelope(code, false, Some(message), NoData)
  }

  function Success(code: int, data: Data): Reply {
    Envelope(code, true, None, data)
  }
}
