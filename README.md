# Common Voice dataset index, in Dafny

A model of the `CommonVoice` dataset class of a speech-recognition project
(`src/utils/CommonVoice.py`): the validation its constructor applies to its
arguments, the configuration it stores, its length, and how an integer index
is resolved to the row's transcript and audio file before the audio is
decoded and turned into features.

Files:

- `wrappers.dfy` — `Option` (Python's `None`) and `Result` (a raised exception).
- `posix_path.dfy` — `os.path.join` with two arguments as Python's `posixpath`
  defines it (an absolute second argument replaces the first), and
  `os.path.basename` with the `rfind` it is built on, used as the inverse of
  `join` on a last path component.
- `py_values.dfy` — the Python values a numeric argument may hold (`int`,
  `bool`, `float`, integer-valued non-`int` objects such as numpy scalars,
  anything else), with `isinstance(v, int)` and `==` against an integer.
  `bool` passes `isinstance(v, int)`; `True`, `1.0` and `numpy.int64(1)` all
  compare equal to `1`.
- `common_voice.dfy` — the dataset: the arguments (`Args`), what construction
  observes of the filesystem (`FileSystem`: the set of paths
  `os.path.exists` accepts, and the tables `pandas.read_csv` can read, path to
  rows), the pure decision procedure `Validate`, and the class `CommonVoice`.
  `CommonVoice.Create` makes the constructor's checks one after the other,
  raising (returning `Failure`) at the first that fails, and is proved to agree
  with `Validate`. A Dafny constructor cannot fail, so the class's constructor
  requires the configuration invariant `ConfigValid` (which `Create` has
  established by then), stores the attributes and ensures `Valid()`. The
  attributes are `const` fields, assigned once by the constructor, so no
  operation changes the stored table or any other attribute; `Len`, `Locate`
  and `GetItem` only read them.

Audio decoding (`torchaudio.load`), `preprocess_waveform` and
`extract_features` are function parameters of `GetItem`, each of which may
fail (`None`): the model states which path is loaded, that the loaded audio
goes through the object's own preprocessing configuration, and that a failure
of any of them propagates, not what those functions compute.

Facts about the code that the model keeps:

- The checks run in this order: the sampling rate's type, the channel count,
  the dataset directory, the subset selection, the table load, the tokenizer.
- The sampling rate is only checked with `isinstance(x, int)`: there is no
  positivity check, and a `bool` passes. It is stored unchanged.
- The exceptions are an `AssertionError` (sampling rate), `ValueError`s (every
  other check) and whatever the table reader raises (`ExceptionOf`).
- An integer index goes to pandas `iloc`, which also accepts negative indices:
  `-n <= idx < 0` selects row `idx + n`; only indices outside `[-n, n)` raise
  `IndexError`.
- The tokenizer is checked after the table is loaded, so an unreadable table is
  reported even when the tokenizer is missing.

## Model

| member | source | states |
|---|---|---|
| `PosixPath.Join` | src/utils/CommonVoice.py:125 | an absolute second argument is the result; otherwise the result starts with the first and ends with the second, with exactly one separator inserted iff the first is non-empty and does not end with one |
| `PosixPath.BasenameOfJoin` | src/utils/CommonVoice.py:125 | joining a component without `/` onto any directory and taking the basename gives the component back |
| `PosixPath.JoinInjective` | src/utils/CommonVoice.py:125 | under one directory, two relative names that join to the same path are equal, so distinct relative row path strings give distinct joined path strings |
| `CommonVoiceDataset.ExceptionOf` | src/utils/CommonVoice.py:59-97 | the sampling-rate check raises `AssertionError`, the table load raises the reader's error, every other check raises `ValueError` |
| `CommonVoiceDataset.ResolveTablePath` | src/utils/CommonVoice.py:75-89 | name only and known: exactly `join(dataset_dir, name + ".tsv")`, which starts with the dataset directory string and has basename `<name>.tsv`; name only and unknown: error; both: error; neither: error; path only: the path verbatim; success exactly in the two accepted cases |
| `CommonVoiceDataset.Validate` | src/utils/CommonVoice.py:55-99 | a wrong sampling-rate type is rejected whatever else is passed; each later error arises iff the earlier checks pass and its own fails; an unreadable table is an error naming the resolved path; the tokenizer error only after the table loaded; success iff every check passes; on success the stored split name, directory, rate and channel count are the arguments unchanged, the clips path is `join(dir, "clips")`, the table is the one read from the resolved path, the tokenizer is the one given, and the configuration invariant holds |
| `CommonVoiceDataset.DefaultArgs` | src/utils/CommonVoice.py:20 | with the default arguments (2 channels at 16000 Hz, no subset, no tokenizer) construction fails on every filesystem |
| `CommonVoiceDataset.ResolveIndex` | src/utils/CommonVoice.py:115 | an index selects a row iff `-n <= idx < n`; the row is `idx` modulo `n` and lies in range, and a non-negative index selects itself |
| `CommonVoiceDataset.AudioPath` | src/utils/CommonVoice.py:125 | a missing `path` column is a `KeyError`, an empty (NaN) cell a `TypeError`; otherwise the path is exactly `join(clips_path, row path)`: it ends with the row's own path, starts with the clips path string when that path is relative, is that path itself when it is absolute, and has it as basename when it is a single component |
| `CommonVoiceDataset.CommonVoice.constructor` | src/utils/CommonVoice.py:55-103 | given attributes that satisfy the configuration invariant, stores each as given, binds the preprocessing configuration to the stored channel count, rate and tokenizer, and establishes `Valid()` |
| `CommonVoiceDataset.CommonVoice.Create` | src/utils/CommonVoice.py:20-103 | fails exactly when `Validate` fails and with the same error; on success a new object whose attributes are `Validate`'s configuration, which satisfies the invariant, and whose length is the row count of the table read |
| `CommonVoiceDataset.CommonVoice.Len` | src/utils/CommonVoice.py:106-107 | the length is the number of rows of the stored table; `Create`'s contract ties it to the size of the table read from the resolved path |
| `CommonVoiceDataset.CommonVoice.Locate` | src/utils/CommonVoice.py:115-125 | `IndexError` iff the index selects no row; a row without `sentence` is a `KeyError`; otherwise the result is the selected row's own sentence and `AudioPath` of that row, or `AudioPath`'s error; on a valid object a relative row path resolves to a path starting with `join(dataset_dir, "clips")` |
| `CommonVoiceDataset.CommonVoice.GetItem` | src/utils/CommonVoice.py:110-136 | errors of `Locate` propagate; a path the loader cannot read is an `AudioLoadError` for that path; a failure of preprocessing or of feature extraction propagates; success iff all four steps succeed; the record holds exactly the waveform preprocessed with the object's own configuration, the row's sentence, and the features extracted from that waveform |

## Left out

- Batched indexing with a tensor or array index (lines 112-113): it relies on pandas `iloc` list semantics.
- `__repr__`: formatting only.
- `src/utils/grad_flow.py`: plotting, and floating-point reductions over gradients.
- Validate: assumes the `Preprocessing(...)` constructor called at line 103 never raises, because the preprocessing module is not part of this model; so the success condition of `Validate` (and of `CommonVoice.Create`, which agrees with it) holds only under that assumption, including for the unusual values it admits (a negative or `bool` sampling rate, a float channel count).
- CommonVoice.Create: fails exactly when `Validate` does only under the same assumption that the `Preprocessing(...)` constructor at line 103 never raises.
- `Preprocessing` (the preprocessing module is not part of this model): resampling, channel mixing and the mel-spectrogram are function parameters of `GetItem`, so their contracts (resample before mixing, determinism) are not stated.
- `pandas.read_csv` parsing: a table is given as rows of text or NaN cells; cells pandas would parse as numbers are not modelled, nor errors the reader might raise on a readable path.
- `torchaudio.load`: a function parameter returning `None` for an unreadable file.
- `os.path.exists`: it is a set of paths; that it also holds for plain files is the caller's choice of set.
- The `super(CommonVoice).__init__()` call: it has no effect on the object.
- `python -O`, which removes the sampling-rate assertion: the model keeps the assertion.
- Windows path joining (`ntpath`): only POSIX `join` is modelled.
- Floating-point NaN and infinities, and objects with their own `__eq__` other than integer-valued scalars, as channel counts.
- A non-string `subset_name` or `subset_path`: the model takes both as optional strings.
