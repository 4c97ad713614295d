/** Keys and records of an experiment, and the difference between two variants' settings. */
module Records {

  /** A setting; an absent one counts as null where two variants are compared. */
  datatype Value = Null | Of(text: string)

  type Settings = map<string, Value>

  function Setting(s: Settings, axis: string): Value {
    if axis in s then s[axis] else Null
  }

  datatype Difference = Difference(control: Value, treatment: Value)

  /** The axes on which the settings differ, with both values. */
  function VariantDiff(control: Settings, treatment: Settings): map<string, Difference> {
    map axis <- control.Keys + treatment.Keys | Setting(control, axis) != Setting(treatment, axis)
      :: Difference(Setting(control, axis), Setting(treatment, axis))
  }

  datatype BlockKey = BlockKey(experiment: string, pack: string, task: string, repetition: nat)

  datatype TrialKey = TrialKey(experiment: string, pack: string, task: string, variant: string, repetition: nat)
  {
    function Block(): BlockKey {
      BlockKey(experiment, pack, task, repetition)
    }
  }

  datatype PairKey = PairKey(
    experiment: string, pack: string, axis: string, task: string, repetition: nat, control: string, treatment: string)
  {
    function Block(): BlockKey {
      BlockKey(experiment, pack, task, repetition)
    }
  }

  datatype AttemptKey = AttemptKey(block: BlockKey, variant: string, attempt: nat)

  datatype QueryKey = QueryKey(experiment: string, suite: string, query: string)

  datatype CaseKey = CaseKey(experiment: string, suite: string, query: string, configuration: string)
}
