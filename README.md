# Generic dataset: disk manager, sample generator and pipeline guard

This project models the core of `generic_dataset`, a small Python library that stores
labelled samples on disk. It has three parts.

- **The disk manager** (`DiskManager`, from `dataset_disk_manager.py`) sets up the tree
  `<dataset>/<folder>/{positive_samples|negative_samples}/<field>/`. It seeds a positive
  and a negative counter from the files already on disk. Each time a sample is saved,
  one atomic step reserves the next ordinal of the sample's polarity and the new total.
  Each dataset field is then written to `{positive|negative}_<field>_<total>_(<ordinal>)`.
- **The sample generator** (`Generator`, from `sample_generator.py`) builds a sample
  class from named, typed fields: plain fields, dataset fields and custom methods. It
  also models the per-instance state and methods of the samples that class creates:
  the getter, setter, pipeline creation and its `assign`, the pipeline getter,
  `save_field` and `load_field`.
- **The pipeline guard** (`Samples`, from `generic_sample.py`) is the
  `synchronize_on_fields` decorator. It refuses a field-bound method while a pipeline
  on one of its fields is active. It also gives back exactly the field locks it took.

The supporting modules are:

- `Outcomes`: `Option`, `Result`, `Outcome`.
- `Exceptions`: one constructor per exception the core raises.
- `Decimal`: `str()` of a natural number, with its parse round trip.
- `Os`: paths as sequences of components, and a file system made of a set of
  directories and a set of files.

Raised exceptions become `Failure`/`Fail` results.

The disk manager keeps a ghost history. It holds the counters found at construction
and the polarity of every save since. Its invariant says the counters are the fold of
that history through the reservation step. The lemmas about that fold state the
properties that hold over any sequence of saves:

- the counters go up monotonically;
- the ordinals within a polarity have no gaps;
- the totals are distinct;
- no two (save, field) pairs are written to the same path.

## Model

| member | source | states |
|---|---|---|
| Samples.CheckPipelines | generic_dataset/generic_sample.py:48-51 | It fails exactly when pipeline checking is on and some named field has a slot holding a pipeline. The error is AnotherActivePipeline and names such a field. With checking off it always passes. |
| Samples.FieldsWithoutSlotNeverBlock | generic_dataset/generic_sample.py:50 | Fields that have no slot in the pipeline map, i.e. fields that are not ndarrays, never count as having an active pipeline. |
| Samples.Acquire | generic_dataset/generic_sample.py:44-47 | Taking the locks of the named fields raises each of their hold counts by one and leaves every other field's count alone. |
| Samples.Release | generic_dataset/generic_sample.py:54-55 | Releasing the locks of the named fields lowers each of their hold counts by one and leaves every other field's count alone. |
| Samples.ReleaseUndoesAcquire | generic_dataset/generic_sample.py:44-55 | The finally clause releases exactly what was acquired, so the held locks after a call equal those before. |
| Generator.SampleGenerator.constructor | generic_dataset/sample_generator.py:56-61 | A fresh generator has the fields {is_positive} typed bool, no dataset fields and no custom methods. |
| Generator.SampleGenerator.AddField | generic_dataset/sample_generator.py:63-84 | An existing name, is_positive included, gives FieldNameAlreadyExists and leaves the state unchanged. Otherwise exactly that name and type are added. The generator invariant is kept. |
| Generator.SampleGenerator.AddDatasetField | generic_dataset/sample_generator.py:86-109 | The same ladder as add_field. The field joins the dataset fields only when add_field succeeds, so dataset fields stay distinct declared fields. |
| Generator.SampleGenerator.AddCustomPipeline | generic_dataset/sample_generator.py:111-143 | Checks, in order: elaborated field exists, final field exists, elaborated type is ndarray, final type is ndarray, method name is new. Each refusal comes with its exception and changes nothing. On success only the custom-method table gains that one entry. |
| Generator.SampleGenerator.AddCustomMethod | generic_dataset/sample_generator.py:145-164 | An existing method name gives MethodAlreadyExists and changes nothing. Otherwise exactly one entry is added. |
| Generator.SampleGenerator.GenerateSampleClass | generic_dataset/sample_generator.py:166-203 | Each call yields a new class, distinct from all earlier ones, bound to this generator. |
| Generator.GeneratedSample.constructor | generic_dataset/sample_generator.py:205-219 | Copies the generator's fields, types and dataset fields. Every value is None except is_positive, which holds the argument. The pipeline slots are exactly the ndarray fields, all empty. No lock is held. |
| Generator.GeneratedSample.IsPositive | generic_dataset/dataset_disk_manager.py:91 | The polarity save_sample reads is the bool the sample's is_positive field holds. |
| Generator.GeneratedSample.Get | generic_dataset/sample_generator.py:246-262 | Refused with AnotherActivePipeline while the field's pipeline is active. Otherwise returns the field's value. Locks are unchanged. |
| Generator.GeneratedSample.Set | generic_dataset/sample_generator.py:221-244 | Refused first for an active pipeline, then with FieldHasIncorrectType when the value's type differs from the declared one. Otherwise only that field's value changes. Locks are unchanged. |
| Generator.GeneratedSample.CreatePipeline | generic_dataset/sample_generator.py:264-295 | Refused, with nothing changed, while either field has an active pipeline. Otherwise a pipeline over the elaborated field's value becomes active in both fields' slots, and no other slot changes. |
| Generator.GeneratedSample.Assign | generic_dataset/sample_generator.py:278-284 | Writes the data into the final field, clears both pipeline slots and returns the data. |
| Generator.GeneratedSample.GetPipeline | generic_dataset/sample_generator.py:335-347 | Runs without the pipeline check and returns the field's slot. |
| Generator.GeneratedSample.SaveField | generic_dataset/sample_generator.py:297-314 | Refusals come in this order: FieldDoesNotExist, FieldIsNotDatasetPart, AnotherActivePipeline. Otherwise the save callback adds exactly the file at the path. A refused save writes nothing. |
| Generator.GeneratedSample.LoadField | generic_dataset/sample_generator.py:316-333 | The same ladder as save_field. Otherwise only that field's value becomes what the load callback read. |
| Decimal.NatToString | generic_dataset/dataset_disk_manager.py:107-108 | str() of a natural number is a non-empty string of decimal digits. |
| Decimal.ParseNatToString | generic_dataset/dataset_disk_manager.py:107-108 | The decimal digits of a natural number parse back to that number. |
| Decimal.NatToStringInjective | generic_dataset/dataset_disk_manager.py:107-108 | Different numbers have different decimal strings. |
| Os.ListedFilesCount | generic_dataset/dataset_disk_manager.py:124-125 | The listed names of a directory that are regular files count exactly the files directly inside it. |
| DiskManager.Reserve | generic_dataset/dataset_disk_manager.py:90-101 | One critical section reserves the polarity's pre-increment count as the ordinal. It raises that counter by one and leaves the other counter alone. The total is the old sum plus one, i.e. the post-increment sum. |
| DiskManager.Reservations | generic_dataset/dataset_disk_manager.py:90-101 | A sequence of saves makes one reservation per save. |
| DiskManager.FinalCounts | generic_dataset/dataset_disk_manager.py:91-98 | After any sequence of saves, each counter is its starting value plus the number of saves of its polarity. Each save raises only its own counter, by exactly one. |
| DiskManager.ReservationAt | generic_dataset/dataset_disk_manager.py:90-101 | The k-th save reserves its polarity's starting count plus the earlier saves of that polarity as its ordinal. Its total is the starting total plus k + 1. |
| DiskManager.OrdinalsGapFree | generic_dataset/dataset_disk_manager.py:90-101 | The ordinals one polarity receives are, in order, its starting count, then that plus one, and so on, one per save. There are no gaps and no repeats. |
| DiskManager.ReservationsDistinct | generic_dataset/dataset_disk_manager.py:100-107 | A later save has a strictly larger total than an earlier one. Within a polarity it also has a strictly larger ordinal. |
| DiskManager.FileName | generic_dataset/dataset_disk_manager.py:106-109 | The name starts with positive_ or negative_, the field and an underscore, and ends with ')'. Its digits are pinned down by FileNameInjective. |
| DiskManager.FileNameInjective | generic_dataset/dataset_disk_manager.py:106-109 | For one polarity and field, the file name determines the total and the ordinal. |
| DiskManager.SamplePath | generic_dataset/dataset_disk_manager.py:104-110 | A field's file lies at dataset/folder/{positive_samples, negative_samples}/field/name. |
| DiskManager.SamplePathsDistinct | generic_dataset/dataset_disk_manager.py:90-110 | Over any sequence of saves, distinct (save, field) pairs are written to distinct paths. |
| DiskManager.FirstPositiveSaveName | generic_dataset/dataset_disk_manager.py:90-109 | The first positive save into an empty folder reserves ordinal 0 and total 1. With field a, its file is positive_a_1_(0). |
| DiskManager.PositiveThenNegativeNames | generic_dataset/dataset_disk_manager.py:90-109 | A positive save then a negative save into an empty folder reserve (positive, 0, 1) and then (negative, 0, 2). |
| DiskManager.MakeDirIfMissing | generic_dataset/dataset_disk_manager.py:138-139 | Does nothing when the path exists. Otherwise it creates the directory exactly when its parent is a directory. On failure the error names the path: NotADirectory when the parent is a file, FileNotFound otherwise. |
| DiskManager.SetUpRootDirs | generic_dataset/dataset_disk_manager.py:138-143 | Creates, where missing, the dataset directory and then the folder inside it, and nothing else. With a directory parent and no file in the way it creates exactly the missing ones; if both already exist it changes nothing. A failure names one of the two. |
| DiskManager.SetUpPolarityDirs | generic_dataset/dataset_disk_manager.py:145-151 | Creates, where missing, positive_samples and then negative_samples inside the folder, and nothing else. With the folder a directory and no file in the way it creates exactly the missing ones; if both already exist it changes nothing. A failure names one of the two. |
| DiskManager.SetUpTopDirs | generic_dataset/dataset_disk_manager.py:138-151 | Creates, where missing, the dataset directory, the folder and both polarity directories, and nothing else. If they all already exist it changes nothing. A failure names a directory it was to create. |
| DiskManager.SetUpFieldDirs | generic_dataset/dataset_disk_manager.py:155-158 | Creates, where missing, one directory per dataset field under a polarity directory, and nothing else. A failure names a directory it was to create. |
| DiskManager.SetUpFolders | generic_dataset/dataset_disk_manager.py:133-158 | FileNotFoundError, creating nothing, when the dataset path's parent is missing. It only ever creates directories of the tree. On success the whole tree exists. With a directory parent and no file in the way, it creates exactly the missing part of the tree. When the tree already exists it changes nothing. Any other failure is an OS error naming a directory of the tree. |
| DiskManager.CountSamples | generic_dataset/dataset_disk_manager.py:119-131 | IndexError without dataset fields. Otherwise it succeeds exactly when both directories of the first field exist. A missing negative directory is reported first, then a missing positive one, as NotADirectory or FileNotFound of that path. It returns (negatives, positives): the numbers of regular files in the negative and in the positive directory. |
| DiskManager.DatasetDiskManager.Init | generic_dataset/dataset_disk_manager.py:54-60 | Stores the path, the folder and the sample. Seeds the counters with an empty save history. |
| DiskManager.DatasetDiskManager.Create | generic_dataset/dataset_disk_manager.py:43-61 | Every failure is either IndexError, when there is no dataset field and the tree was set up, or an OS error. An OS error is FileNotFound for a missing parent, or one naming a path of the tree. With an existing parent directory, no file in the way and at least one dataset field, construction succeeds. With no dataset field and setup succeeding, it is exactly IndexError. When the tree already exists, nothing is created, and it succeeds exactly when the first field's two directories are directories; otherwise the error is NotADirectory. On success the tree exists and the counters equal the regular files in the first field's negative and positive directories. |
| DiskManager.DatasetDiskManager.GetNegativeSamplesCount | generic_dataset/dataset_disk_manager.py:63-69 | Returns, without changing anything, the negative files found at construction plus the negative saves since. |
| DiskManager.DatasetDiskManager.GetPositiveSamplesCount | generic_dataset/dataset_disk_manager.py:71-77 | Returns, without changing anything, the positive files found at construction plus the positive saves since. |
| DiskManager.DatasetDiskManager.SaveSample | generic_dataset/dataset_disk_manager.py:79-117 | A sample of another class gives TypeError and changes neither counter nor any file. Otherwise it reserves the pre-increment ordinal and raises only that polarity's counter by one. The total is the post-increment sum. The history gains this reservation, so the counter invariant is kept. The files written are exactly the paths of the fields saved, in order, up to the first field with an active pipeline. That field's error is returned unless a thread was asked for. |
| DiskManager.DatasetDiskManager.SaveAllFields | generic_dataset/dataset_disk_manager.py:103-110 | Writes each dataset field, in order, to its path for the reservation. It stops at, and reports, the first field with an active pipeline. It adds exactly the files of the fields saved. |

## Left out

- Threads and locks are not modelled as concurrency. The counter critical section is one atomic step. The per-field reentrant locks are a multiset of held field names. `_acquire_lock`, which only makes taking a method's field locks atomic against other threads, is dropped.
- With `use_thread`, the detached writer thread is modelled as having finished its writes before `save_sample` returns. Its failure is not reported, matching a thread whose exception is never observed. Interleaving with other saves is not modelled.
- The real file system, `os.path.join` and `os.path.dirname` are abstract. A path is a sequence of components. Joining appends one component and taking the directory name drops the last one.
- The errors of `os.mkdir` and `os.listdir` name the path they were given, like the `filename` of Python's OSError; the error text is not modelled.
- The save and load callbacks are not modelled as code. A save records that a file was written at the given path, and never fails. Any extension the callback adds is not modelled. A load's result is a parameter of `LoadField`, and the load callback's own failures are not modelled.
- `DataPipeline`, its operations and numpy arrays are not modelled. A pipeline is its data and its two fields, and an array value is an abstract token.
- `add_custom_pipeline`'s `pipeline` argument (its operations queue) is not modelled.
- The metaclass, `__doc__` formatting and the per-field method names (`set_<field>`, `get_<field>`, `create_pipeline_for_<field>`, `get_pipeline_<field>`) are not modelled. They are Python dynamic dispatch; generated methods are modelled as methods taking the field name. Custom methods that collide with generated names are therefore not detected, as in the source.
- User functions added by `add_custom_method` are only recorded as table entries.
- `isinstance(sample, type(self._sample))` is modelled as identity of the generated class. Subclasses of a generated class are not modelled.
- `type(value) != field_type` is modelled as inequality of an abstract type tag.
- Generator.GeneratedSample.Assign: like the source's `assign`, it does not check which pipeline is active in the slots it clears.
- Source inconsistencies are modelled by intent:
  - `synchronize_on_fields` declares `field_names` but is called with `fields_name=` (sample_generator.py:225). The model calls the guard with the field set.
  - `save_sample` calls `sample.is_positive()` while samples offer `get_is_positive` (dataset_disk_manager.py:91, 106). The model reads the is_positive field.
  - The abstract `save_field`/`load_field` declare a `file_name` parameter that the generated methods lack. The model follows the generated methods.
  - `GenericSample` declares `acquire_all_locks`/`release_all_locks` abstract and the generated class defines neither, so `ABCMeta` would refuse to instantiate it. The model treats generated classes as instantiable.
- The exception messages are not modelled; only the exception kind and the field or method it names are.
