/**
 * `dicom_metadata.py`: print one tab-separated line of selected DICOM
 * attributes for a file.
 *
 * A DICOM tag is an ordered pair of 16-bit unsigned integers, group and
 * element (DICOM PS3.5 section 7.1), written as the 32-bit number
 * group * 0x10000 + element.  Tags are Python integers here, so they are
 * `nat`s; for a non-negative integer, `t >> 16` is `t / 0x10000` and
 * `x & 0xffff` is `x % 0x10000`, which is how the split is written.
 *
 * The parsed file is a map from tag to the text `repr(value)` gives for
 * that attribute.
 */
module DicomMetadata {
  import opened Effects
  import opened Text

  /** The attributes extracted, in output order (DICOM PS3.6 data dictionary). */
  const PatientName: nat := 0x00100010
  const PatientID: nat := 0x00100020
  const SOPClassUID: nat := 0x00080016
  const StudyDate: nat := 0x00080020
  const StudyTime: nat := 0x00080030
  const StationName: nat := 0x00081010
  const StudyInstanceUID: nat := 0x0020000D

  const Tags: seq<nat> := [PatientName, PatientID, SOPClassUID, StudyDate, StudyTime, StationName, StudyInstanceUID]

  /** `(t >> 16) & 0xffff`: the group number of a tag. */
  function Group(t: nat): (g: nat)
    ensures g < 0x10000
  {
    t / 0x10000 % 0x10000
  }

  /** `t & 0xffff`: the element number of a tag. */
  function Element(t: nat): (e: nat)
    ensures e < 0x10000
  {
    t % 0x10000
  }

  /** The tag of a (group, element) pair, as `ds[group, element]` looks it up. */
  function TagOf(group: nat, element: nat): nat
  {
    group * 0x10000 + element
  }

  /** A 32-bit tag splits into two 16-bit halves that put back together give the tag. */
  lemma TagSplit(t: nat)
    requires t < 0x1_0000_0000
    ensures Group(t) < 0x10000 && Element(t) < 0x10000
    ensures TagOf(Group(t), Element(t)) == t
  {
    assert t / 0x10000 < 0x10000;
  }

  /** The pair a tag is split into determines the tag: different tags have different pairs. */
  lemma TagSplitInjective(s: nat, t: nat)
    requires s < 0x1_0000_0000 && t < 0x1_0000_0000
    requires Group(s) == Group(t) && Element(s) == Element(t)
    ensures s == t
  {
    TagSplit(s);
    TagSplit(t);
  }

  /** The extracted attributes' (group, element) pairs, as the data dictionary lists them. */
  lemma TagPairs()
    ensures (Group(PatientName), Element(PatientName)) == (0x0010, 0x0010)
    ensures (Group(PatientID), Element(PatientID)) == (0x0010, 0x0020)
    ensures (Group(SOPClassUID), Element(SOPClassUID)) == (0x0008, 0x0016)
    ensures (Group(StudyDate), Element(StudyDate)) == (0x0008, 0x0020)
    ensures (Group(StudyTime), Element(StudyTime)) == (0x0008, 0x0030)
    ensures (Group(StationName), Element(StationName)) == (0x0008, 0x1010)
    ensures (Group(StudyInstanceUID), Element(StudyInstanceUID)) == (0x0020, 0x000D)
  {
  }

  lemma TagsAre32Bit()
    ensures forall k :: 0 <= k < |Tags| ==> Tags[k] < 0x1_0000_0000
  {
  }

  /** The text for one tag: its value's `repr`, or the quoted word 'None' when the file lacks it. */
  function ValueText(ds: map<nat, string>, t: nat): string
  {
    if t in ds then ds[t] else "'None'"
  }

  /** One text per extracted tag, in tag order. */
  function TagValues(ds: map<nat, string>): (values: seq<string>)
    ensures |values| == |Tags|
  {
    seq(|Tags|, k requires 0 <= k < |Tags| => ValueText(ds, Tags[k]))
  }

  /** The line printed for a file. */
  function MetadataLine(filename: string, ds: map<nat, string>): string
  {
    filename + "\t" + Join(TagValues(ds), '\t')
  }

  /**
   * `extract_metadata`: without a file name a complaint; otherwise the
   * values are joined with a delimiter that is empty before the first value
   * and a tab before each later one.
   */
  method ExtractMetadata(filename: Option<string>, ds: map<nat, string>) returns (lines: seq<string>)
    ensures filename.None? ==> lines == ["Missing --filename option in the extract function"]
    ensures filename.Some? ==> lines == [MetadataLine(filename.value, ds)]
  {
    if filename.None? {
      lines := ["Missing --filename option in the extract function"];
      return;
    }
    TagsAre32Bit();
    var tags := Tags;
    var outputStr := "";
    var delimiterStr := "";
    for i := 0 to |tags|
      invariant outputStr == Join(TagValues(ds)[..i], '\t')
      invariant delimiterStr == if i == 0 then "" else "\t"
    {
      var t := tags[i];
      var gggg := Group(t);
      var eeee := Element(t);
      var valueString := "'None'";
      if t in ds {
        TagSplit(t);
        valueString := ds[TagOf(gggg, eeee)];
      }
      assert valueString == TagValues(ds)[i];
      Accumulate(TagValues(ds), i, outputStr, delimiterStr);
      outputStr := outputStr + delimiterStr + valueString;
      delimiterStr := "\t";
    }
    assert TagValues(ds)[..|tags|] == TagValues(ds);
    lines := [filename.value + "\t" + outputStr];
  }

  /** One step of the delimiter accumulator extends the join by the next value. */
  lemma Accumulate(values: seq<string>, i: nat, output: string, delimiter: string)
    requires i < |values|
    requires output == Join(values[..i], '\t')
    requires delimiter == if i == 0 then "" else "\t"
    ensures output + delimiter + values[i] == Join(values[..i + 1], '\t')
  {
    assert values[..i + 1] == values[..i] + [values[i]];
    if i > 0 {
      JoinSnoc(values[..i], values[i], '\t');
    }
  }

  /** The texts of a file's values carry no tab. */
  predicate TabFree(ds: map<nat, string>)
  {
    forall t :: t in ds ==> '\t' !in ds[t]
  }

  /**
   * With tab-free texts, the line splits into the file name and exactly one
   * field per tag, in tag order, a missing tag giving 'None' in quotes.
   */
  lemma MetadataLineFields(filename: string, ds: map<nat, string>)
    requires '\t' !in filename && TabFree(ds)
    ensures var fields := Split(MetadataLine(filename, ds), '\t');
      |fields| == 1 + |Tags| && fields[0] == filename
      && forall k :: 0 <= k < |Tags| ==> fields[k + 1] == if Tags[k] in ds then ds[Tags[k]] else "'None'"
  {
    var values := TagValues(ds);
    ValuesTabFree(ds);
    JoinCons(filename, values, '\t');
    SplitJoin([filename] + values, '\t');
    assert Split(MetadataLine(filename, ds), '\t') == [filename] + values;
  }

  lemma ValuesTabFree(ds: map<nat, string>)
    requires TabFree(ds)
    ensures forall k :: 0 <= k < |TagValues(ds)| ==> '\t' !in TagValues(ds)[k]
  {
  }

  /** The delimiter accumulator puts exactly six tabs between the seven values. */
  lemma ValueSeparators(ds: map<nat, string>)
    requires TabFree(ds)
    ensures multiset(Join(TagValues(ds), '\t'))['\t'] == |Tags| - 1 == 6
  {
    ValuesTabFree(ds);
    JoinSeparatorCount(TagValues(ds), '\t');
  }

  /** The script's main block: extract when asked, otherwise a complaint. */
  method RunDicom(extract: bool, filename: Option<string>, ds: map<nat, string>) returns (lines: seq<string>)
    ensures !extract ==> lines == ["No action specified among the command line options"]
    ensures extract && filename.Some? ==> lines == [MetadataLine(filename.value, ds)]
    ensures extract && filename.None? ==> lines == ["Missing --filename option in the extract function"]
  {
    if extract {
      lines := ExtractMetadata(filename, ds);
    } else {
      lines := ["No action specified among the command line options"];
    }
  }
}
