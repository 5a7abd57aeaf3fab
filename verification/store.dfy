/** The playlist store: reading, writing and deleting one playlist document
    per date, over an abstract file store that maps paths to entries. */
module Store {
  import opened Types
  import opened Paths
  import opened Layout
  import opened Config

  /** A file in the store: either a document the JSON reader accepts, or
      contents it rejects. */
  datatype Entry = Valid(doc: Playlist) | Corrupt

  /** The files under the playlists location, by path. */
  type Store = map<Path, Entry>

  /** What a store operation answers, and the store it leaves behind. */
  datatype Step<T> = Step(result: Result<T, ServiceError>, store: Store)

  function Lookup(s: Store, p: Path): Option<Entry>
  {
    if p in s then Some(s[p]) else None
  }

  /** Nothing but the file at t differs between a and b. */
  ghost predicate SameExcept(a: Store, b: Store, t: Path)
  {
    forall p :: p != t ==> Lookup(a, p) == Lookup(b, p)
  }

  /** The file read_playlist and delete_playlist look at for a date. */
  function DateTarget(cfg: PlayoutConfig, date: string): Path
    requires ValidDate(date)
  {
    DatePath(cfg.channel.playlists, date)
  }

  /** write_playlist computes `d[1]` of the document's date only when the
      playlists location is not itself a JSON file. */
  predicate CanWrite(cfg: PlayoutConfig, doc: Playlist)
  {
    IsJsonFile(cfg.channel.playlists) || ValidDate(doc.date)
  }

  /** The file write_playlist writes: the configured location verbatim when
      it is a JSON file, otherwise the file for the document's date. */
  function WriteTarget(cfg: PlayoutConfig, doc: Playlist): Path
    requires CanWrite(cfg, doc)
  {
    if IsJsonFile(cfg.channel.playlists) then cfg.channel.playlists
    else DatePath(cfg.channel.playlists, doc.date)
  }

  /** read_playlist: no file gives NoContent, an undecodable file gives
      Conflict, otherwise the stored document. The store is only read. */
  function Read(store: Store, cfg: PlayoutConfig, date: string): (r: Result<Playlist, ServiceError>)
    requires ValidDate(date)
    ensures var t := DateTarget(cfg, date);
      && (r == Err(NoContent) <==> t !in store)
      && (r == Err(Conflict(Undecodable)) <==> t in store && store[t].Corrupt?)
      && (r.Ok? <==> t in store && store[t].Valid?)
      && (r.Ok? ==> store[t] == Valid(r.value))
  {
    var t := DateTarget(cfg, date);
    if t !in store then Err(NoContent)
    else match store[t]
      case Corrupt => Err(Conflict(Undecodable))
      case Valid(doc) => Ok(doc)
  }

  /** write_playlist. An equal document already in place is a Conflict and
      changes nothing; otherwise the document overwrites whatever was there
      (an undecodable file included), touching no other file, and the
      message says Updated exactly when a file existed before. A failing
      writer answers InternalServerError. */
  function Write(store: Store, cfg: PlayoutConfig, doc: Playlist, writer: IoOutcome): (s: Step<Message>)
    requires CanWrite(cfg, doc)
    ensures var t := WriteTarget(cfg, doc);
      && (s.result == Err(Conflict(AlreadyExists(doc.date))) <==> Lookup(store, t) == Some(Valid(doc)))
      && (s.result == Err(InternalServerError) <==> Lookup(store, t) != Some(Valid(doc)) && writer == Failed)
      && (s.result.Ok? <==> Lookup(store, t) != Some(Valid(doc)) && writer == Done)
      && (s.result.Err? ==> s.store == store)
      && (s.result.Ok? ==> Lookup(s.store, t) == Some(Valid(doc)) && SameExcept(store, s.store, t))
      && (s.result == Ok(Updated(doc.date)) <==> s.result.Ok? && t in store)
      && (s.result == Ok(Written(doc.date)) <==> s.result.Ok? && t !in store)
  {
    var t := WriteTarget(cfg, doc);
    var existed := t in store;
    if existed && store[t] == Valid(doc) then
      Step(Err(Conflict(AlreadyExists(doc.date))), store)
    else if writer == Failed then
      Step(Err(InternalServerError), store)
    else
      Step(Ok(if existed then Updated(doc.date) else Written(doc.date)), store[t := Valid(doc)])
  }

  /** delete_playlist: a present file (decodable or not) is removed and
      nothing else changes; an absent one is a successful no-op. A failing
      removal answers InternalServerError and leaves the store as it was. */
  function Delete(store: Store, cfg: PlayoutConfig, date: string, remover: IoOutcome): (s: Step<Message>)
    requires ValidDate(date)
    ensures var t := DateTarget(cfg, date);
      && (t !in store ==> s == Step(Ok(NothingToDelete(date)), store))
      && (t in store && remover == Done ==>
            s.result == Ok(Deleted(date)) && t !in s.store && SameExcept(store, s.store, t))
      && (t in store && remover == Failed ==> s == Step(Err(InternalServerError), store))
  {
    var t := DateTarget(cfg, date);
    if t in store then
      if remover == Done then Step(Ok(Deleted(date)), store - {t})
      else Step(Err(InternalServerError), store)
    else
      Step(Ok(NothingToDelete(date)), store)
  }

  /** A document written by its date, with a working writer and no equal
      document already in place, is what a later read of that date returns. */
  lemma WriteThenRead(store: Store, cfg: PlayoutConfig, doc: Playlist, writer: IoOutcome)
    requires !IsJsonFile(cfg.channel.playlists) && ValidDate(doc.date)
    requires writer == Done && Lookup(store, DatePath(cfg.channel.playlists, doc.date)) != Some(Valid(doc))
    ensures Read(Write(store, cfg, doc, writer).store, cfg, doc.date) == Ok(doc)
  {
  }

  /** Writing the same document twice: when the first write goes through,
      the second is a Conflict and leaves the store as the first one left it. */
  lemma WriteTwiceConflicts(store: Store, cfg: PlayoutConfig, doc: Playlist, w1: IoOutcome, w2: IoOutcome)
    requires CanWrite(cfg, doc)
    requires Lookup(store, WriteTarget(cfg, doc)) != Some(Valid(doc)) && w1 == Done
    ensures var s1 := Write(store, cfg, doc, w1).store;
      Write(s1, cfg, doc, w2) == Step(Err(Conflict(AlreadyExists(doc.date))), s1)
  {
  }

  /** Overwrite on change: after a written document a, a different
      document b for the same file is accepted as an update, and reading
      the date then gives b. */
  lemma OverwriteOnChange(store: Store, cfg: PlayoutConfig, a: Playlist, b: Playlist)
    requires !IsJsonFile(cfg.channel.playlists) && ValidDate(a.date)
    requires b.date == a.date && b != a
    requires Lookup(store, DatePath(cfg.channel.playlists, a.date)) != Some(Valid(a))
    ensures var s2 := Write(Write(store, cfg, a, Done).store, cfg, b, Done);
      && s2.result == Ok(Updated(b.date))
      && Read(s2.store, cfg, b.date) == Ok(b)
  {
  }

  /** Deleting twice never fails the second time: it reports that there is
      nothing to delete and changes nothing, whatever the removal would do. */
  lemma DeleteTwice(store: Store, cfg: PlayoutConfig, date: string, r1: IoOutcome, r2: IoOutcome)
    requires ValidDate(date)
    requires Delete(store, cfg, date, r1).result.Ok?
    ensures var s1 := Delete(store, cfg, date, r1).store;
      Delete(s1, cfg, date, r2) == Step(Ok(NothingToDelete(date)), s1)
  {
  }

  /** After a successful delete, reading the date finds nothing. */
  lemma DeleteThenRead(store: Store, cfg: PlayoutConfig, date: string, remover: IoOutcome)
    requires ValidDate(date)
    requires Delete(store, cfg, date, remover).result.Ok?
    ensures Read(Delete(store, cfg, date, remover).store, cfg, date) == Err(NoContent)
  {
  }

  /** When the playlists location is itself a JSON file, write replaces that
      file, which is never the file read_playlist derives from the date:
      reading the document's date afterwards answers exactly as before. */
  lemma FileLocationNotReadBack(store: Store, cfg: PlayoutConfig, doc: Playlist, writer: IoOutcome)
    requires IsJsonFile(cfg.channel.playlists) && ValidDate(doc.date)
    ensures Read(Write(store, cfg, doc, writer).store, cfg, doc.date) == Read(store, cfg, doc.date)
  {
  }

  /** Configuring the file of some date as the playlists location makes
      write_playlist use that file verbatim, whatever date the document
      carries: the written file then sits where read_playlist would look
      for that date under the parent root. */
  lemma DateFileAsLocation(store: Store, cfg: PlayoutConfig, root: Path, date: string, doc: Playlist)
    requires ValidDate(date) && cfg.channel.playlists == DatePath(root, date)
    ensures CanWrite(cfg, doc)
    ensures WriteTarget(cfg, doc) == DatePath(root, date)
  {
    DatePathIsJsonFile(root, date);
  }

  /** The configuration of the worked example below: playlists under
      /data/playlists, media under /data/media, no template. */
  function ExampleConfig(): PlayoutConfig
  {
    PlayoutConfig(General(None), Channel(["data", "playlists"], ["data", "media"]))
  }

  /** The example's playlists location is a directory, not a JSON file. */
  lemma ExampleRootIsNotJsonFile()
    ensures !IsJsonFile(ExampleConfig().channel.playlists)
  {
    IsJsonFileIff(["data", "playlists"]);
    assert "playlists"[4] != '.';
  }

  /** In the worked example, reads, writes and deletes of 2024-03-07 all
      address /data/playlists/2024/03/2024-03-07.json. */
  lemma ExampleTarget(doc: Playlist)
    requires doc.date == "2024-03-07"
    ensures ValidDate(doc.date) && CanWrite(ExampleConfig(), doc)
    ensures DateTarget(ExampleConfig(), doc.date) == ["data", "playlists", "2024", "03", "2024-03-07.json"]
    ensures WriteTarget(ExampleConfig(), doc) == ["data", "playlists", "2024", "03", "2024-03-07.json"]
  {
    assert doc.date == "2024" + "-" + "03" + "-" + "07";
    assert doc.date + ".json" == "2024-03-07.json";
    CanonicalLayout(ExampleConfig().channel.playlists, "2024", "03", "07");
    ExampleRootIsNotJsonFile();
  }

  /** The worked example, first half: in an empty store the document for
      2024-03-07 is created as the only file, and reading the date returns it. */
  lemma ExampleWrite(doc: Playlist)
    requires doc.date == "2024-03-07"
    ensures ValidDate(doc.date) && CanWrite(ExampleConfig(), doc)
    ensures var w := Write(map[], ExampleConfig(), doc, Done);
      && w.result == Ok(Written("2024-03-07"))
      && w.store == map[["data", "playlists", "2024", "03", "2024-03-07.json"] := Valid(doc)]
      && Read(w.store, ExampleConfig(), doc.date) == Ok(doc)
  {
    ExampleTarget(doc);
    var t: Path := ["data", "playlists", "2024", "03", "2024-03-07.json"];
    var w := Write(map[], ExampleConfig(), doc, Done);
    assert Lookup(map[], t) == None;
    assert w.store == map[t := Valid(doc)];
    assert w.result == Ok(Written(doc.date));
  }

  /** The worked example, second half: deleting the created file empties
      the store, and deleting again is a no-op. */
  lemma ExampleDelete(doc: Playlist)
    requires doc.date == "2024-03-07"
    ensures ValidDate(doc.date)
    ensures var s := map[["data", "playlists", "2024", "03", "2024-03-07.json"] := Valid(doc)];
      && Delete(s, ExampleConfig(), doc.date, Done) == Step(Ok(Deleted("2024-03-07")), map[])
      && Delete(map[], ExampleConfig(), doc.date, Done) == Step(Ok(NothingToDelete("2024-03-07")), map[])
  {
    ExampleTarget(doc);
    var t: Path := ["data", "playlists", "2024", "03", "2024-03-07.json"];
    assert map[t := Valid(doc)] - {t} == map[];
  }
}
