/**
 * The parsed descriptor as the loaders receive it: nested mappings produced by the
 * YAML or JSON parser. Every key the loaders read is a field of type `Field`, which
 * keeps apart the cases the code branches on: the key is missing (`"k" not in d`),
 * present with value `null` (`d["k"] is None`), an integer (`type(d["k"]) is int`),
 * a string, a list, or any other value (a float, a boolean, a mapping).
 * Keys the loaders never read are not represented.
 */
module Raw {
  import opened Wrappers

  datatype Field = Absent | Null | Int(i: int) | Str(s: string) | List(items: seq<Field>) | Other

  /** One case mapping: `input`, `output` (hydro schema), `answer` (sastoj schema),
      `score`, `time`, `memory`. */
  datatype RawCase = RawCase(input: Field, output: Field, answer: Field, score: Field,
                             time: Field, memory: Field)

  /** One subtask mapping: `id`, `type` (here `kind`), `cases` (a list when present),
      `score`, `time`, `memory`, `if` (here `cond`). */
  datatype RawSubtask = RawSubtask(id: Field, kind: Field, cases: Option<seq<RawCase>>,
                                   score: Field, time: Field, memory: Field, cond: Field)

  /** A hydro `config.yaml` after parsing: `type`, `checker_type`, `time`, `memory`,
      `score`, `subtasks` (a list when present). */
  datatype YamlProblem = YamlProblem(kind: Field, checkerType: Field, time: Field, memory: Field,
                                     score: Field, subtasks: Option<seq<RawSubtask>>)

  /** The `task` mapping of a sastoj JSON descriptor: `taskType`, `cases`, `subtasks`. */
  datatype JsonTask = JsonTask(taskType: Field, cases: Option<seq<RawCase>>,
                               subtasks: Option<seq<RawSubtask>>)

  /** A sastoj JSON descriptor after parsing: `judge.judgeType` (None when `judge` or
      `judgeType` is missing), `task`, `score`, `resourceLimits.time` and
      `resourceLimits.memory` (Absent when `resourceLimits` or the inner key is missing). */
  datatype JsonProblem = JsonProblem(judgeType: Option<string>, task: Option<JsonTask>,
                                     score: Field, time: Field, memory: Field)

  /** `"k" in d and d["k"] is not None` */
  predicate Given(f: Field) {
    !f.Absent? && !f.Null?
  }

  /** The value Python reads for `d["k"] if "k" in d else None` when the key holds an
      integer or null. */
  function IntOrNone(f: Field): Option<int> {
    if f.Int? then Some(f.i) else None
  }

  /** The shapes the loaders accept at an integer key (a score, a raw limit, an id). */
  predicate IntShaped(f: Field) {
    f.Absent? || f.Null? || f.Int?
  }
}
