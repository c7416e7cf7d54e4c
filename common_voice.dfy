/**
  The Common Voice dataset class: construction-time validation of its
  arguments, the configuration it stores, its length and the resolution of
  an integer index to the row's sentence and audio file.

  Filesystem access is a value: `FileSystem.existing` answers
  `os.path.exists`, and `FileSystem.tables` holds the tables that
  `pandas.read_csv(path, sep='\t')` can read. Audio decoding and feature
  extraction are functions passed to the fetch.
 */
module CommonVoiceDataset {
  import opened Wrappers
  import opened PyValues
  import PosixPath

  /** The split names accepted for `subset_name`. */
  const KnownSplits: seq<string> := ["train", "test", "dev"]
  /** The channel counts accepted for `out_channels`: mono and stereo. */
  const SupportedChannels: seq<int> := [1, 2]
  const ClipsDir: string := "clips"
  const TableSuffix: string := ".tsv"

  /** A table cell as pandas reads it: text, or NaN for an empty cell. */
  datatype Cell = Text(s: string) | NaN

  /** One row of the metadata table, keyed by the header's column names. */
  type Row = map<string, Cell>

  /** A tokenizer object, known only by its identity. */
  datatype Tokenizer = Tokenizer(id: nat)

  /** What the constructor can observe of the filesystem. */
  datatype FileSystem = FileSystem(existing: set<string>, tables: map<string, seq<Row>>)

  /** The constructor's arguments; `None` is Python's None. */
  datatype Args = Args(
    datasetDir: string,
    subsetName: Option<string>,
    subsetPath: Option<string>,
    outChannels: Value,
    outSamplingRate: Value,
    tokenizer: Option<Tokenizer>)

  /** The exceptions construction can raise, one per raise site. */
  datatype Error =
    | SamplingRateNotInt        // the `isinstance` assertion on out_sampling_rate
    | UnsupportedChannels       // out_channels not in [1, 2]
    | DatasetDirMissing(dir: string)
    | UnknownSplit(name: string)
    | BothSubsetsGiven
    | NoSubsetGiven
    | TableUnreadable(path: string)  // raised by the table reader
    | TokenizerMissing

  /** Python exception classes of the construction errors. */
  datatype ExceptionClass = AssertionError | ValueError | TableReaderError

  /** The exception class each construction error is raised as. */
  function ExceptionOf(e: Error): (c: ExceptionClass)
    ensures c == AssertionError <==> e == SamplingRateNotInt
    ensures c == TableReaderError <==> e.TableUnreadable?
    ensures c == ValueError <==> !(e.SamplingRateNotInt? || e.TableUnreadable?)
  {
    match e
    case SamplingRateNotInt => AssertionError
    case TableUnreadable(_) => TableReaderError
    case _ => ValueError
  }

  /** The configuration the preprocessing object is built with. */
  datatype Preprocessing = Preprocessing(outChannels: Value, outSamplingRate: Value, tokenizer: Tokenizer)

  /** The attributes of a constructed dataset object. */
  datatype Config = Config(
    splitType: Option<string>,
    datasetPath: string,
    outSamplingRate: Value,
    outChannels: Value,
    clipsPath: string,
    dataframe: seq<Row>,
    tokenizer: Tokenizer,
    preprocessing: Preprocessing)

  /** The invariant every successfully constructed configuration satisfies. */
  predicate ConfigValid(c: Config) {
    && IsInstanceInt(c.outSamplingRate)
    && InIntList(c.outChannels, SupportedChannels)
    && c.clipsPath == PosixPath.Join(c.datasetPath, ClipsDir)
    && (c.splitType.Some? ==> c.splitType.value in KnownSplits)
    && c.preprocessing == Preprocessing(c.outChannels, c.outSamplingRate, c.tokenizer)
  }

  /**
    The metadata table's path: the named split's file in the dataset
    directory, or the explicit path verbatim; the two are mutually exclusive
    and one of them is required.
   */
  function ResolveTablePath(datasetDir: string, subsetName: Option<string>, subsetPath: Option<string>): (r: Result<string, Error>)
    ensures subsetName.Some? && subsetPath.Some? ==> r == Failure(BothSubsetsGiven)
    ensures subsetName.None? && subsetPath.None? ==> r == Failure(NoSubsetGiven)
    ensures subsetName.None? && subsetPath.Some? ==> r == Success(subsetPath.value)
    ensures subsetName.Some? && subsetPath.None? && subsetName.value !in KnownSplits ==>
              r == Failure(UnknownSplit(subsetName.value))
    ensures subsetName.Some? && subsetPath.None? && subsetName.value in KnownSplits ==>
              && r == Success(PosixPath.Join(datasetDir, subsetName.value + TableSuffix))
              && datasetDir <= r.value
              && PosixPath.Basename(r.value) == subsetName.value + TableSuffix
    ensures r.Success? <==>
              || (subsetName.None? && subsetPath.Some?)
              || (subsetName.Some? && subsetPath.None? && subsetName.value in KnownSplits)
  {
    if subsetPath.None? && subsetName.Some? then
      if subsetName.value in KnownSplits then
        var file := subsetName.value + TableSuffix;
        assert PosixPath.Sep !in file;
        PosixPath.BasenameOfJoin(datasetDir, file);
        Success(PosixPath.Join(datasetDir, file))
      else
        Failure(UnknownSplit(subsetName.value))
    else if subsetPath.Some? && subsetName.Some? then
      Failure(BothSubsetsGiven)
    else if subsetPath.None? && subsetName.None? then
      Failure(NoSubsetGiven)
    else
      Success(subsetPath.value)
  }

  /** The checks before the table is loaded all pass. */
  predicate PassesUpToSubset(a: Args, fs: FileSystem) {
    && IsInstanceInt(a.outSamplingRate)
    && InIntList(a.outChannels, SupportedChannels)
    && a.datasetDir in fs.existing
    && ResolveTablePath(a.datasetDir, a.subsetName, a.subsetPath).Success?
  }

  /** Every check before the tokenizer check passes, the table load included. */
  predicate PassesUpToTable(a: Args, fs: FileSystem) {
    && PassesUpToSubset(a, fs)
    && ResolveTablePath(a.datasetDir, a.subsetName, a.subsetPath).value in fs.tables
  }

  /**
    What construction does with its arguments: the checks in the order the
    constructor makes them, the first failing one deciding the exception,
    and on success the attributes of the new object.
   */
  function Validate(a: Args, fs: FileSystem): (r: Result<Config, Error>)
    // the sampling-rate type check comes first, whatever the other arguments
    ensures !IsInstanceInt(a.outSamplingRate) ==> r == Failure(SamplingRateNotInt)
    ensures r == Failure(UnsupportedChannels) <==>
              IsInstanceInt(a.outSamplingRate) && !InIntList(a.outChannels, SupportedChannels)
    ensures r == Failure(DatasetDirMissing(a.datasetDir)) <==>
              && IsInstanceInt(a.outSamplingRate)
              && InIntList(a.outChannels, SupportedChannels)
              && a.datasetDir !in fs.existing
    ensures && IsInstanceInt(a.outSamplingRate)
            && InIntList(a.outChannels, SupportedChannels)
            && a.datasetDir in fs.existing
            && ResolveTablePath(a.datasetDir, a.subsetName, a.subsetPath).Failure? ==>
              r == Failure(ResolveTablePath(a.datasetDir, a.subsetName, a.subsetPath).error)
    ensures r.Failure? && r.error.TableUnreadable? <==>
              PassesUpToSubset(a, fs) && !PassesUpToTable(a, fs)
    ensures PassesUpToSubset(a, fs) && !PassesUpToTable(a, fs) ==>
              r == Failure(TableUnreadable(ResolveTablePath(a.datasetDir, a.subsetName, a.subsetPath).value))
    // the tokenizer check is the last one
    ensures r == Failure(TokenizerMissing) <==> PassesUpToTable(a, fs) && a.tokenizer.None?
    ensures r.Success? <==> PassesUpToTable(a, fs) && a.tokenizer.Some?
    ensures r.Success? ==>
              && PassesUpToTable(a, fs)
              && r.value.dataframe == fs.tables[ResolveTablePath(a.datasetDir, a.subsetName, a.subsetPath).value]
    ensures r.Success? ==>
              && r.value.splitType == a.subsetName
              && r.value.datasetPath == a.datasetDir
              && r.value.outSamplingRate == a.outSamplingRate
              && r.value.outChannels == a.outChannels
              && r.value.clipsPath == PosixPath.Join(a.datasetDir, ClipsDir)
              && a.tokenizer == Some(r.value.tokenizer)
    ensures r.Success? ==> ConfigValid(r.value)
  {
    if !IsInstanceInt(a.outSamplingRate) then Failure(SamplingRateNotInt)
    else if !InIntList(a.outChannels, SupportedChannels) then Failure(UnsupportedChannels)
    else if a.datasetDir !in fs.existing then Failure(DatasetDirMissing(a.datasetDir))
    else
      match ResolveTablePath(a.datasetDir, a.subsetName, a.subsetPath)
      case Failure(e) => Failure(e)
      case Success(path) =>
        if path !in fs.tables then Failure(TableUnreadable(path))
        else if a.tokenizer.None? then Failure(TokenizerMissing)
        else
          Success(Config(a.subsetName, a.datasetDir, a.outSamplingRate, a.outChannels,
                         PosixPath.Join(a.datasetDir, ClipsDir), fs.tables[path], a.tokenizer.value,
                         Preprocessing(a.outChannels, a.outSamplingRate, a.tokenizer.value)))
  }

  /** The constructor's default arguments for a given dataset directory. */
  function DefaultArgs(datasetDir: string): (a: Args)
    // the defaults leave both subset arguments and the tokenizer unset, so they never construct
    ensures forall fs :: Validate(a, fs).Failure?
  {
    Args(datasetDir, None, None, Int(2), Int(16000), None)
  }

  /** The errors of a fetch. */
  datatype FetchError =
    | IndexError
    | KeyError(column: string)
    | TypeError                     // the row's path cell is not a string
    | AudioLoadError(path: string)  // raised by the audio loader
    | PreprocessError               // raised by `preprocess_waveform`
    | FeatureError                  // raised by `extract_features`

  /** A fetched item: exactly the keys `waveform`, `sentence` and `melspec`. */
  datatype Record<W, M> = Record(waveform: W, sentence: Cell, melspec: M)

  /**
    pandas `iloc` with one integer: negative indices count from the end,
    anything outside `[-n, n)` is an IndexError.
   */
  function ResolveIndex(idx: int, n: nat): (r: Option<nat>)
    ensures r.Some? <==> -(n as int) <= idx < n
    ensures r.Some? ==> r.value < n && r.value % n == idx % n
    ensures r.Some? && idx >= 0 ==> r.value == idx
  {
    if 0 <= idx < n then Some(idx)
    else if -(n as int) <= idx < 0 then Some(idx + n)
    else None
  }

  /** `os.path.join(clips_path, row['path'])`: the row's audio file. */
  function AudioPath(clipsPath: string, row: Row): (r: Result<string, FetchError>)
    ensures "path" !in row ==> r == Failure(KeyError("path"))
    ensures "path" in row && row["path"].NaN? ==> r == Failure(TypeError)
    ensures r.Success? <==> "path" in row && row["path"].Text?
    ensures r.Success? ==> r.value == PosixPath.Join(clipsPath, row["path"].s)
    ensures r.Success? ==> PosixPath.IsSuffix(row["path"].s, r.value)
    ensures r.Success? && PosixPath.IsAbsolute(row["path"].s) ==> r.value == row["path"].s
    ensures r.Success? && !PosixPath.IsAbsolute(row["path"].s) ==> clipsPath <= r.value
    ensures r.Success? && PosixPath.Sep !in row["path"].s ==> PosixPath.Basename(r.value) == row["path"].s
  {
    if "path" !in row then Failure(KeyError("path"))
    else match row["path"]
      case NaN => Failure(TypeError)
      case Text(p) =>
        assert PosixPath.Sep !in p ==> PosixPath.Basename(PosixPath.Join(clipsPath, p)) == p by {
          if PosixPath.Sep !in p { PosixPath.BasenameOfJoin(clipsPath, p); }
        }
        Success(PosixPath.Join(clipsPath, p))
  }

  class CommonVoice {
    const splitType: Option<string>
    const datasetPath: string
    const outSamplingRate: Value
    const outChannels: Value
    const clipsPath: string
    const dataframe: seq<Row>
    const tokenizer: Tokenizer
    const preprocessing: Preprocessing

    /** The object's attributes as one value. */
    function State(): Config
    {
      Config(splitType, datasetPath, outSamplingRate, outChannels, clipsPath, dataframe, tokenizer, preprocessing)
    }

    ghost predicate Valid()
    {
      ConfigValid(State())
    }

    /** Stores the attributes once every check has passed. */
    constructor (splitType: Option<string>, datasetPath: string, outSamplingRate: Value, outChannels: Value,
                 clipsPath: string, dataframe: seq<Row>, tokenizer: Tokenizer)
      requires ConfigValid(Config(splitType, datasetPath, outSamplingRate, outChannels, clipsPath, dataframe,
                                  tokenizer, Preprocessing(outChannels, outSamplingRate, tokenizer)))
      ensures Valid()
      ensures State() == Config(splitType, datasetPath, outSamplingRate, outChannels, clipsPath, dataframe,
                                tokenizer, Preprocessing(outChannels, outSamplingRate, tokenizer))
    {
      this.splitType := splitType;
      this.datasetPath := datasetPath;
      this.outSamplingRate := outSamplingRate;
      this.outChannels := outChannels;
      this.clipsPath := clipsPath;
      this.dataframe := dataframe;
      this.tokenizer := tokenizer;
      this.preprocessing := Preprocessing(outChannels, outSamplingRate, tokenizer);
    }

    /**
      Construction: each check in turn, raising at the first that fails;
      the result agrees with `Validate` and a new object satisfies `Valid`.
     */
    static method Create(a: Args, fs: FileSystem) returns (r: Result<CommonVoice, Error>)
      ensures r.Failure? <==> Validate(a, fs).Failure?
      ensures r.Failure? ==> r.error == Validate(a, fs).error
      ensures r.Success? ==> fresh(r.value) && r.value.Valid() && r.value.State() == Validate(a, fs).value
      ensures r.Success? ==> r.value.Len() == |fs.tables[ResolveTablePath(a.datasetDir, a.subsetName, a.subsetPath).value]|
    {
      var splitType := a.subsetName;
      var datasetPath := a.datasetDir;

      if !IsInstanceInt(a.outSamplingRate) {
        return Failure(SamplingRateNotInt);
      }
      var outSamplingRate := a.outSamplingRate;

      var outChannels: Value;
      if InIntList(a.outChannels, SupportedChannels) {
        outChannels := a.outChannels;
      } else {
        return Failure(UnsupportedChannels);
      }

      var clipsPath: string;
      if a.datasetDir in fs.existing {
        clipsPath := PosixPath.Join(a.datasetDir, ClipsDir);
      } else {
        return Failure(DatasetDirMissing(a.datasetDir));
      }

      var fullpath: string;
      if a.subsetPath.None? && a.subsetName.Some? {
        if a.subsetName.value in KnownSplits {
          fullpath := PosixPath.Join(a.datasetDir, a.subsetName.value + TableSuffix);
        } else {
          return Failure(UnknownSplit(a.subsetName.value));
        }
      } else if a.subsetPath.Some? && a.subsetName.Some? {
        return Failure(BothSubsetsGiven);
      } else if a.subsetPath.None? && a.subsetName.None? {
        return Failure(NoSubsetGiven);
      } else {
        fullpath := a.subsetPath.value;
      }

      if fullpath !in fs.tables {
        return Failure(TableUnreadable(fullpath));
      }
      var dataframe := fs.tables[fullpath];

      if a.tokenizer.None? {
        return Failure(TokenizerMissing);
      }
      var ds := new CommonVoice(splitType, datasetPath, outSamplingRate, outChannels, clipsPath, dataframe,
                                a.tokenizer.value);
      return Success(ds);
    }

    /** `len(dataset)`: the number of rows of the stored table. */
    function Len(): (n: nat)
      ensures n == |dataframe|
    {
      |dataframe|
    }

    /**
      The row/path part of `dataset[idx]` for an integer `idx`: the selected
      row's own sentence and the audio path built from its own `path` cell.
     */
    function Locate(idx: int): (r: Result<(Cell, string), FetchError>)
      ensures r == Failure(IndexError) <==> ResolveIndex(idx, |dataframe|).None?
      ensures ResolveIndex(idx, |dataframe|).Some? ==>
                var row := dataframe[ResolveIndex(idx, |dataframe|).value];
                && ("sentence" !in row ==> r == Failure(KeyError("sentence")))
                && ("sentence" in row && AudioPath(clipsPath, row).Failure? ==> r == Failure(AudioPath(clipsPath, row).error))
                && (r.Success? <==> "sentence" in row && AudioPath(clipsPath, row).Success?)
                && (r.Success? ==> r.value.0 == row["sentence"] && r.value.1 == AudioPath(clipsPath, row).value)
      // on a constructed dataset a relative row path lands under `<dataset_dir>/clips`
      ensures Valid() && r.Success? ==>
                var row := dataframe[ResolveIndex(idx, |dataframe|).value];
                !PosixPath.IsAbsolute(row["path"].s) ==> PosixPath.Join(datasetPath, ClipsDir) <= r.value.1
    {
      match ResolveIndex(idx, |dataframe|)
      case None => Failure(IndexError)
      case Some(k) =>
        var item := dataframe[k];
        if "sentence" !in item then Failure(KeyError("sentence"))
        else
          var sentence := item["sentence"];
          match AudioPath(clipsPath, item)
          case Failure(e) => Failure(e)
          case Success(audioFilePath) => Success((sentence, audioFilePath))
    }

    /**
      `dataset[idx]` for an integer `idx`: locate the row, load its audio,
      preprocess the waveform and extract features, all with the object's
      own preprocessing configuration; a failure of any step propagates.
     */
    function GetItem<Raw, W, M>(idx: int, load: string -> Option<(Raw, int)>,
                                preprocess: (Preprocessing, Raw, int) -> Option<(W, int)>,
                                extract: (Preprocessing, W) -> Option<M>): (r: Result<Record<W, M>, FetchError>)
      ensures Locate(idx).Failure? ==> r == Failure(Locate(idx).error)
      ensures Locate(idx).Success? && load(Locate(idx).value.1).None? ==> r == Failure(AudioLoadError(Locate(idx).value.1))
      ensures Locate(idx).Success? && load(Locate(idx).value.1).Some? ==>
                var audio := load(Locate(idx).value.1).value;
                && (preprocess(preprocessing, audio.0, audio.1).None? ==> r == Failure(PreprocessError))
                && (preprocess(preprocessing, audio.0, audio.1).Some? &&
                    extract(preprocessing, preprocess(preprocessing, audio.0, audio.1).value.0).None? ==>
                      r == Failure(FeatureError))
      ensures r.Success? <==>
                && Locate(idx).Success?
                && load(Locate(idx).value.1).Some?
                && var audio := load(Locate(idx).value.1).value;
                   && preprocess(preprocessing, audio.0, audio.1).Some?
                   && extract(preprocessing, preprocess(preprocessing, audio.0, audio.1).value.0).Some?
      ensures r.Success? ==>
                var audio := load(Locate(idx).value.1).value;
                && r.value.sentence == Locate(idx).value.0
                && r.value.waveform == preprocess(preprocessing, audio.0, audio.1).value.0
                && r.value.melspec == extract(preprocessing, r.value.waveform).value
    {
      match Locate(idx)
      case Failure(e) => Failure(e)
      case Success((sentence, audioFilePath)) =>
        match load(audioFilePath)
        case None => Failure(AudioLoadError(audioFilePath))
        case Some((waveform, sourceSamplingRate)) =>
          match preprocess(preprocessing, waveform, sourceSamplingRate)
          case None => Failure(PreprocessError)
          case Some((processed, _)) =>
            match extract(preprocessing, processed)
            case None => Failure(FeatureError)
            case Some(melspec) => Success(Record(processed, sentence, melspec))
    }
  }
}
