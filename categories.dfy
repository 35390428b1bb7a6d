/**
  The three category maps of the sidebar form (home ownership, loan intent,
  loan grade): label-to-code encoding for the model's input and the
  first-match reverse lookup that turns a code back into a label for the
  input summary.
 */
module Categories {
  import opened Wrappers
  import opened DictTable

  datatype Dimension = Home | Intent | Grade

  const HomeOptions: Table<string> :=
    [("MORTGAGE", 0), ("OTHER", 1), ("OWN", 2), ("RENT", 3)]

  const IntentOptions: Table<string> :=
    [("DEBTCONSOLIDATION", 0), ("EDUCATION", 1), ("HOMEIMPROVEMENT", 2),
     ("MEDICAL", 3), ("PERSONAL", 4), ("VENTURE", 5)]

  const GradeOptions: Table<string> :=
    [("A", 0), ("B", 1), ("C", 2), ("D", 3), ("E", 4), ("F", 5), ("G", 6)]

  /** The dict literal for one dimension. */
  function Options(d: Dimension): Table<string>
  {
    match d
    case Home => HomeOptions
    case Intent => IntentOptions
    case Grade => GradeOptions
  }

  /** The labels the select box offers: the dict's keys, in order. */
  function Labels(d: Dimension): seq<string>
  {
    Keys(Options(d))
  }

  /** Each map is a genuine dict whose codes are 0, 1, ... in order. */
  lemma OptionsWellFormed(d: Dimension)
    ensures WellFormedOptions(Options(d))
  {
  }

  /** The map sizes: 4 home-ownership labels, 6 intents, 7 grades. */
  lemma OptionCounts()
    ensures |Labels(Home)| == 4
    ensures |Labels(Intent)| == 6
    ensures |Labels(Grade)| == 7
  {
  }

  /**
    The code stored under a selected label (`home_options[key]` and its
    siblings). Its first-match decoding is the label itself.
   */
  function Code(d: Dimension, key: string): (code: int)
    requires key in Labels(d)
    ensures 0 <= code < |Labels(d)|
    ensures Text(d, code) == Some(key)
  {
    OptionsWellFormed(d);
    IndexCodesInjective(Options(d));
    DecodeEncoded(Options(d), key);
    Get(Options(d), key).value
  }

  /**
    The label shown for a code (`[k for k, v in ... if v == code][0]`);
    None is the IndexError for a code that no label carries.
   */
  function Text(d: Dimension, code: int): (key: Option<string>)
    ensures key.Some? <==> 0 <= code < |Labels(d)|
    ensures key.Some? ==> key.value in Labels(d)
                            && Get(Options(d), key.value) == Some(code)
  {
    OptionsWellFormed(d);
    var r := FirstKeyWithValue(Options(d), code);
    assert r.Some? ==> Get(Options(d), r.value) == Some(code) by {
      if r.Some? { EncodeDecoded(Options(d), code); }
    }
    r
  }

  /** Decoding then encoding: every code 0..n-1 names a label whose code it is. */
  lemma CodeOfText(d: Dimension, code: int)
    requires 0 <= code < |Labels(d)|
    ensures Text(d, code).Some? && Code(d, Text(d, code).value) == code
  {
    var key := Text(d, code).value;
    var r := Get(Options(d), key);
    assert Code(d, key) == r.value;
  }

  /** Distinct labels of one dimension get distinct codes. */
  lemma CodeInjective(d: Dimension, a: string, b: string)
    requires a in Labels(d) && b in Labels(d)
    ensures Code(d, a) == Code(d, b) ==> a == b
  {
    var ta, tb := Text(d, Code(d, a)), Text(d, Code(d, b));
  }

  /** The codes of a dimension are exactly 0..n-1. */
  lemma CodesExactly(d: Dimension, code: int)
    ensures (exists key :: key in Labels(d) && Code(d, key) == code)
            <==> 0 <= code < |Labels(d)|
  {
    if 0 <= code < |Labels(d)| {
      CodeOfText(d, code);
    }
  }
}
