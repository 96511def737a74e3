/**
 * The IO command dispatcher of src/io/handler.rs. The handler owns a shared
 * `App`; each command runs one handler that may replace the boards or flag
 * the app as initialized, and every command ends by flagging the app as
 * loaded. The lock around `App` is left out: commands run one at a time.
 */
module IoHandler {
  import opened Wrappers
  import opened Kanban
  import SaveFiles

  /** The five commands the IO worker accepts. */
  datatype IoEvent = Initialize | GetLocalData | GetCloudData | Reset | SaveLocalData

  /** The configuration file: the serialised `AppConfig::default()`, or whatever else is stored there. */
  datatype ConfigFile = DefaultConfig | Edited(text: string)

  /** The part of the filesystem the handler checks and creates by itself. */
  datatype Disk = Disk(configDirExists: bool, configFile: Option<ConfigFile>, saveDirExists: bool)

  /**
   * The data_handler functions the handler calls, given by their results:
   * the listed save-file names, the loader, the saver and the config reset.
   */
  datatype Storage = Storage(
    saveFiles: seq<string>,
    load: SaveFiles.Loader,
    save: seq<Board> -> Result<(), string>,
    resetConfig: Disk -> Disk)

  /** `prepare_config_dir`: create the directory and a default config file where missing; never overwrite a config. */
  function PrepareConfigDir(disk: Disk): (r: (Disk, bool))
    ensures r.1
    ensures r.0.configDirExists && r.0.configFile.Some?
    ensures disk.configFile.Some? ==> r.0.configFile == disk.configFile
    ensures disk.configFile.None? ==> r.0.configFile == Some(DefaultConfig)
    ensures r.0.saveDirExists == disk.saveDirExists
  {
    var withDir := if !disk.configDirExists then disk.(configDirExists := true) else disk;
    var withFile := if withDir.configFile.None? then withDir.(configFile := Some(DefaultConfig)) else withDir;
    (withFile, true)
  }

  /** `prepare_save_dir`: create the save directory where missing. */
  function PrepareSaveDir(disk: Disk): (r: (Disk, bool))
    ensures r.1
    ensures r.0.saveDirExists
    ensures r.0.configDirExists == disk.configDirExists && r.0.configFile == disk.configFile
  {
    var withDir := if !disk.saveDirExists then disk.(saveDirExists := true) else disk;
    (withDir, true)
  }

  /** What the rendering side reads from `App`: the boards and the two lifecycle flags. */
  datatype AppState = AppState(boards: seq<Board>, initialized: bool, loaded: bool)

  /** The fields of `App` that the handler touches. */
  class App {
    var boards: seq<Board>
    var isInitialized: bool
    var isLoaded: bool

    /** A start state with no boards and neither flag set; `App::new` itself is not part of this model. */
    constructor ()
      ensures State() == AppState([], false, false)
    {
      boards, isInitialized, isLoaded := [], false, false;
    }

    function State(): AppState
      reads this
    {
      AppState(boards, isInitialized, isLoaded)
    }

    /** `set_boards`, and the direct assignment `app.boards = ...`. */
    method SetBoards(boards: seq<Board>)
      modifies this
      ensures State() == old(State()).(boards := boards)
    {
      this.boards := boards;
    }

    /** `initialized()`: flagging twice is the same as once. */
    method Initialized()
      modifies this
      ensures State() == old(State()).(initialized := true)
    {
      isInitialized := true;
    }

    /** `loaded()`. */
    method Loaded()
      modifies this
      ensures State() == old(State()).(loaded := true)
    {
      isLoaded := true;
    }
  }

  /** The app state after `handle_io_event` has run one command. */
  function Dispatch(event: IoEvent, s: AppState, io: Storage): (t: AppState)
    ensures t.loaded
    ensures t.initialized == (s.initialized || event == Initialize)
  {
    var handled := match event
      case Initialize => s.(boards := SaveFiles.PrepareBoards(io.saveFiles, io.load), initialized := true)
      case GetLocalData => s.(boards := [])
      case GetCloudData => s.(boards := [])
      case Reset => s
      case SaveLocalData => s;
    handled.(loaded := true)
  }

  /** The disk after `handle_io_event` has run one command. */
  function DiskAfter(event: IoEvent, disk: Disk, io: Storage): (d: Disk)
    ensures event == Initialize ==> d.configDirExists && d.saveDirExists && d.configFile.Some?
    ensures event == Reset ==> d == io.resetConfig(disk)
    ensures event !in {Initialize, Reset} ==> d == disk
  {
    match event
    case Initialize => PrepareSaveDir(PrepareConfigDir(disk).0).0
    case Reset => io.resetConfig(disk)
    case _ => disk
  }

  class IoAsyncHandler {
    const app: App

    constructor (app: App)
      ensures this.app == app
    {
      this.app := app;
    }

    /** Run one command; whatever it returns, the app ends up flagged as loaded. */
    method HandleIoEvent(event: IoEvent, disk: Disk, io: Storage) returns (disk': Disk)
      modifies app
      ensures app.State() == Dispatch(event, old(app.State()), io)
      ensures disk' == DiskAfter(event, disk, io)
    {
      var result: Result<(), string>;
      match event {
        case Initialize =>
          disk', result := DoInitialize(disk, io);
        case GetLocalData =>
          result := GetLocalSave();
          disk' := disk;
        case GetCloudData =>
          result := GetCloudSave();
          disk' := disk;
        case Reset =>
          disk', result := ResetConfig(disk, io);
        case SaveLocalData =>
          var status;
          result, status := SaveLocalData(io);
          disk' := disk;
      }
      if result.Failure? {
        // the error is only logged
      }
      app.Loaded();
    }

    /** Prepare both directories, install the prepared boards and flag the app as initialized. */
    method DoInitialize(disk: Disk, io: Storage) returns (disk': Disk, result: Result<(), string>)
      modifies app
      ensures result == Success(())
      ensures app.State() == old(app.State()).(boards := SaveFiles.PrepareBoards(io.saveFiles, io.load), initialized := true)
      ensures disk' == PrepareSaveDir(PrepareConfigDir(disk).0).0
    {
      var (configured, configOk) := PrepareConfigDir(disk);
      if !configOk {
        // "Cannot create config directory" is only logged
      }
      var (saved, saveOk) := PrepareSaveDir(configured);
      disk' := saved;
      if !saveOk {
        // "Cannot create save directory" is only logged
      }
      app.SetBoards(SaveFiles.PrepareBoards(io.saveFiles, io.load));
      app.Initialized();
      result := Success(());
    }

    /** Local loading is a placeholder: it empties the boards. */
    method GetLocalSave() returns (result: Result<(), string>)
      modifies app
      ensures result == Success(())
      ensures app.State() == old(app.State()).(boards := [])
    {
      app.SetBoards([]);
      result := Success(());
    }

    /** Cloud loading has no backend: it empties the boards like local loading. */
    method GetCloudSave() returns (result: Result<(), string>)
      modifies app
      ensures result == Success(())
      ensures app.State() == old(app.State()).(boards := [])
    {
      app.SetBoards([]);
      result := Success(());
    }

    /** Reset the configuration; the app, boards included, is not touched. */
    method ResetConfig(disk: Disk, io: Storage) returns (disk': Disk, result: Result<(), string>)
      ensures result == Success(())
      ensures disk' == io.resetConfig(disk)
    {
      disk' := io.resetConfig(disk);
      result := Success(());
    }

    /**
     * Hand the app's current boards to the saver; `status` is what the saver
     * reported. A failed save is only logged, so the command succeeds.
     */
    method SaveLocalData(io: Storage) returns (result: Result<(), string>, status: Result<(), string>)
      ensures status == io.save(app.boards)
      ensures result == Success(())
    {
      status := io.save(app.boards);
      if status.Failure? {
        // "Cannot save local data" is only logged
      }
      result := Success(());
    }
  }

  // -----------------------------------------------------------------------
  // Properties of one command.

  /** `Initialize` installs the prepared boards. */
  lemma InitializeInstallsBoards(s: AppState, io: Storage)
    ensures Dispatch(Initialize, s, io).boards == SaveFiles.PrepareBoards(io.saveFiles, io.load)
    ensures Dispatch(Initialize, s, io).initialized
  {
  }

  /** A failing loader still leaves exactly one default board, and the app initialized and loaded. */
  lemma InitializeSurvivesLoadFailure(s: AppState, io: Storage)
    requires io.load(SaveFiles.VersionOf(SaveFiles.LatestSaveName(io.saveFiles))).Failure?
    ensures Dispatch(Initialize, s, io) == AppState([DefaultBoard], true, true)
  {
  }

  /** Local and cloud loading both leave no boards. */
  lemma LoadingEmptiesBoards(s: AppState, io: Storage)
    ensures Dispatch(GetLocalData, s, io) == Dispatch(GetCloudData, s, io) == s.(boards := [], loaded := true)
  {
  }

  /** `Reset` and `SaveLocalData` leave the boards as they were. */
  lemma ResetAndSaveKeepBoards(s: AppState, io: Storage)
    ensures Dispatch(Reset, s, io).boards == s.boards
    ensures Dispatch(SaveLocalData, s, io).boards == s.boards
  {
  }

  /** Running the same command twice in the same environment is the same as running it once. */
  lemma DispatchIdempotent(event: IoEvent, s: AppState, io: Storage)
    ensures Dispatch(event, Dispatch(event, s, io), io) == Dispatch(event, s, io)
  {
  }

  /** The two directory checks always report success, so their error branches never run. */
  lemma PrepareDirsAlwaysSucceed(disk: Disk)
    ensures PrepareConfigDir(disk).1 && PrepareSaveDir(disk).1
  {
  }

  /** After `Initialize` both directories and a config file exist, and an existing config is kept. */
  lemma InitializePreparesDisk(disk: Disk, io: Storage)
    ensures DiskAfter(Initialize, disk, io).configDirExists && DiskAfter(Initialize, disk, io).saveDirExists
    ensures DiskAfter(Initialize, disk, io).configFile == if disk.configFile.Some? then disk.configFile else Some(DefaultConfig)
  {
  }

  // -----------------------------------------------------------------------
  // Properties of a sequence of commands handled in order.

  /** The app state after handling `events` in order. */
  function Run(events: seq<IoEvent>, s: AppState, io: Storage): AppState
  {
    if events == [] then s else Run(events[1..], Dispatch(events[0], s, io), io)
  }

  /** Commands that do not write boards leave them untouched, however many run. */
  lemma {:induction false} RunKeepsBoards(events: seq<IoEvent>, s: AppState, io: Storage)
    requires forall i :: 0 <= i < |events| ==> events[i] in {Reset, SaveLocalData}
    ensures Run(events, s, io).boards == s.boards
  {
    if events != [] {
      RunKeepsBoards(events[1..], Dispatch(events[0], s, io), io);
    }
  }

  /** After any non-empty run the app is loaded, and it is initialized exactly when it was or some command was `Initialize`. */
  lemma {:induction false} RunFlags(events: seq<IoEvent>, s: AppState, io: Storage)
    ensures events != [] ==> Run(events, s, io).loaded
    ensures Run(events, s, io).initialized == (s.initialized || Initialize in events)
  {
    if events != [] {
      RunFlags(events[1..], Dispatch(events[0], s, io), io);
      assert events == [events[0]] + events[1..];
    }
  }

  /** The boards after a run are those written by its last board-writing command. */
  lemma {:induction false} RunLastWriterWins(events: seq<IoEvent>, tail: seq<IoEvent>, writer: IoEvent, s: AppState, io: Storage)
    requires writer in {Initialize, GetLocalData, GetCloudData}
    requires forall i :: 0 <= i < |tail| ==> tail[i] in {Reset, SaveLocalData}
    ensures Run(events + [writer] + tail, s, io).boards == Dispatch(writer, s, io).boards
  {
    if events == [] {
      assert events + [writer] + tail == [writer] + tail;
      RunKeepsBoards(tail, Dispatch(writer, s, io), io);
    } else {
      assert (events + [writer] + tail)[1..] == events[1..] + [writer] + tail;
      RunLastWriterWins(events[1..], tail, writer, Dispatch(events[0], s, io), io);
    }
  }
}
