/**
 * The issue-note form: for each prefix ("Date", "Rate") the user names flags,
 * and under each flag writes one or more notes. The form keeps two maps: the
 * notes (prefix to flag to note list) and the flag name being typed for each
 * prefix. Submitting is allowed only once every prefix has a flag.
 */
module NoteForm {
  import opened Wrappers
  import opened Text

  datatype IssueNote = IssueNote(text: string)

  type Flags = map<string, seq<IssueNote>>
  type FormData = map<string, Flags>

  /** The prefixes the form renders, in the order the submit check visits them. */
  const Prefixes: seq<string> := ["Date", "Rate"]

  /** Every flag under every prefix has at least one note. */
  ghost predicate NotesNonEmpty(data: FormData) {
    forall p, f :: p in data && f in data[p] ==> |data[p][f]| > 0
  }

  /**
   * `flags[flag] || []` for a flag that is a key of `flags` or not a key at
   * all: the flag's notes, or none. The lookup also finds the members that
   * every object inherits (`InheritedNames`); for an absent flag with such a
   * name the source goes on to spread a function and throws, a case this
   * model leaves out.
   */
  function NotesOf(flags: Flags, flag: string): seq<IssueNote>
  {
    if flag in flags then flags[flag] else []
  }

  /**
   * The add-note update: the flag (created when absent and not named after
   * an inherited object member) gets one more note, with empty text, after
   * its existing ones; every other flag and every other prefix is left as it
   * was.
   */
  function WithNoteAdded(data: FormData, prefix: string, flag: string): (r: FormData)
    requires prefix in data
    ensures r.Keys == data.Keys
    ensures forall p :: p in data && p != prefix ==> r[p] == data[p]
    ensures r[prefix].Keys == data[prefix].Keys + {flag}
    ensures forall f :: f in data[prefix] && f != flag ==> r[prefix][f] == data[prefix][f]
    ensures |r[prefix][flag]| == |NotesOf(data[prefix], flag)| + 1
    ensures r[prefix][flag][..|NotesOf(data[prefix], flag)|] == NotesOf(data[prefix], flag)
    ensures r[prefix][flag][|NotesOf(data[prefix], flag)|] == IssueNote("")
  {
    data[prefix := data[prefix][flag := NotesOf(data[prefix], flag) + [IssueNote("")]]]
  }

  /** Adding a note never leaves a flag without notes. */
  lemma WithNoteAddedKeepsNotes(data: FormData, prefix: string, flag: string)
    requires prefix in data && NotesNonEmpty(data)
    ensures NotesNonEmpty(WithNoteAdded(data, prefix, flag))
  {
  }

  /**
   * Where JavaScript's `splice(start, 1)` acts on a list of length `len`: a
   * negative start counts back from the end, and the result is clamped to
   * the list.
   */
  function SpliceStart(len: nat, start: int): (k: nat)
    ensures k <= len
  {
    if start < 0 then (if len + start < 0 then 0 else len + start)
    else if start > len then len
    else start
  }

  /**
   * `s.splice(start, 1)` on the list: a start inside the list removes that
   * element, a negative one the element that far from the end (the first
   * element when it reaches past the front), and a start at or past the end
   * removes nothing; an empty list stays empty.
   */
  function SpliceOne<T>(s: seq<T>, start: int): (r: seq<T>)
    ensures 0 <= start < |s| ==> r == s[..start] + s[start + 1..]
    ensures -|s| <= start < 0 ==> r == s[..|s| + start] + s[|s| + start + 1..]
    ensures start < -|s| && s != [] ==> r == s[1..]
    ensures start >= |s| ==> r == s
    ensures s != [] && start < |s| ==> |r| == |s| - 1
    ensures s == [] ==> r == []
  {
    var k := SpliceStart(|s|, start);
    if k < |s| then s[..k] + s[k + 1..] else s
  }

  /** The two refusals of the add-flag button, each shown as an alert. */
  datatype AddFlagError = MissingName | DuplicateName

  /** The names a plain JavaScript object inherits from `Object.prototype`. */
  const InheritedNames: set<string> := {
    "constructor", "hasOwnProperty", "isPrototypeOf", "propertyIsEnumerable",
    "toLocaleString", "toString", "valueOf", "__proto__",
    "__defineGetter__", "__defineSetter__", "__lookupGetter__", "__lookupSetter__"
  }

  /**
   * The add-flag checks as written: the typed name is missing or blank, or
   * `formData[prefix][name]` is truthy, which holds for an existing flag and
   * also for every inherited member of the object.
   */
  function AddFlagProblemAsWritten(data: FormData, pending: map<string, string>, prefix: string): (e: Option<AddFlagError>)
    requires prefix in data
    ensures e == Some(MissingName) <==> prefix !in pending || IsBlank(pending[prefix])
    ensures e == Some(DuplicateName) <==> prefix in pending && !IsBlank(pending[prefix])
                                          && (pending[prefix] in data[prefix] || pending[prefix] in InheritedNames)
  {
    if prefix !in pending || pending[prefix] == "" then Some(MissingName)
    else
      TrimEmptyIffBlank(pending[prefix]);
      if Trim(pending[prefix]) == "" then Some(MissingName)
      else if pending[prefix] in data[prefix] || pending[prefix] in InheritedNames then Some(DuplicateName)
      else None
  }

  /**
   * The add-flag checks as intended: the typed name is missing or blank, or
   * that exact name is already a flag of the prefix. A name passes exactly
   * when it is present, not blank, and not yet a flag.
   */
  function AddFlagProblem(data: FormData, pending: map<string, string>, prefix: string): (e: Option<AddFlagError>)
    requires prefix in data
    ensures e == Some(MissingName) <==> prefix !in pending || IsBlank(pending[prefix])
    ensures e == Some(DuplicateName) <==> prefix in pending && !IsBlank(pending[prefix]) && pending[prefix] in data[prefix]
    ensures e == None <==> prefix in pending && !IsBlank(pending[prefix]) && pending[prefix] !in data[prefix]
  {
    if prefix !in pending || pending[prefix] == "" then Some(MissingName)
    else
      TrimEmptyIffBlank(pending[prefix]);
      if Trim(pending[prefix]) == "" then Some(MissingName)
      else if pending[prefix] in data[prefix] then Some(DuplicateName)
      else None
  }

  /** The two checks disagree exactly on names that are not flags but are inherited object members. */
  lemma AsWrittenRefusesInheritedNames(data: FormData, pending: map<string, string>, prefix: string)
    requires prefix in data
    ensures AddFlagProblemAsWritten(data, pending, prefix) != AddFlagProblem(data, pending, prefix)
        <==> prefix in pending && !IsBlank(pending[prefix])
             && pending[prefix] !in data[prefix] && pending[prefix] in InheritedNames
  {
  }

  /** A form with no flags yet: typing "toString" as a Date flag is refused as a duplicate, though it is not one. */
  lemma ToStringFlagRefused()
    ensures AddFlagProblemAsWritten(map["Date" := map[], "Rate" := map[]], map["Date" := "toString", "Rate" := ""], "Date")
            == Some(DuplicateName)
    ensures AddFlagProblem(map["Date" := map[], "Rate" := map[]], map["Date" := "toString", "Rate" := ""], "Date")
            == None
  {
    assert !IsWhitespace("toString"[0]);
  }

  /**
   * The add-flag update: the name becomes a flag of the prefix holding exactly
   * one empty note; every other flag and every other prefix is left as it was.
   */
  function WithNewFlag(data: FormData, prefix: string, name: string): (r: FormData)
    requires prefix in data
    ensures r.Keys == data.Keys
    ensures forall p :: p in data && p != prefix ==> r[p] == data[p]
    ensures r[prefix].Keys == data[prefix].Keys + {name}
    ensures r[prefix][name] == [IssueNote("")]
    ensures forall f :: f in data[prefix] && f != name ==> r[prefix][f] == data[prefix][f]
  {
    data[prefix := data[prefix][name := [IssueNote("")]]]
  }

  /**
   * The submit check: visits the prefixes in order and stops at the first one
   * without flags, which it returns; returns nothing when every prefix has a
   * flag.
   */
  method FirstPrefixWithoutFlags(data: FormData) returns (missing: Option<string>)
    requires forall p :: p in Prefixes ==> p in data
    ensures missing.None? <==> forall p :: p in Prefixes ==> |data[p]| > 0
    ensures missing.Some? ==> exists k :: 0 <= k < |Prefixes| && Prefixes[k] == missing.value
                                          && |data[Prefixes[k]]| == 0
                                          && forall j :: 0 <= j < k ==> |data[Prefixes[j]]| > 0
  {
    var i := 0;
    while i < |Prefixes|
      invariant 0 <= i <= |Prefixes|
      invariant forall j :: 0 <= j < i ==> |data[Prefixes[j]]| > 0
    {
      if |data[Prefixes[i]]| == 0 {
        return Some(Prefixes[i]);
      }
      i := i + 1;
    }
    return None;
  }

  /** The component's state: the notes, and the flag name being typed for each prefix. */
  class IssueNoteForm {
    var formData: FormData
    var newFlagName: map<string, string>

    /** Both maps are keyed by exactly the rendered prefixes, and no flag is without notes. */
    ghost predicate Valid()
      reads this
    {
      && (forall p :: p in formData <==> p in Prefixes)
      && (forall p :: p in newFlagName <==> p in Prefixes)
      && NotesNonEmpty(formData)
    }

    constructor ()
      ensures Valid()
      ensures formData == map["Date" := map[], "Rate" := map[]]
      ensures newFlagName == map["Date" := "", "Rate" := ""]
    {
      formData := map["Date" := map[], "Rate" := map[]];
      newFlagName := map["Date" := "", "Rate" := ""];
    }

    /** Typing in a prefix's flag-name box replaces that prefix's pending name. */
    method SetNewFlagName(prefix: string, value: string)
      requires Valid() && prefix in newFlagName
      modifies this`newFlagName
      ensures Valid()
      ensures newFlagName == old(newFlagName)[prefix := value]
      ensures formData == old(formData)
    {
      newFlagName := newFlagName[prefix := value];
    }

    /**
     * Editing a note: only the text of the note at `index` changes; the list
     * keeps its length and every other note, flag and prefix is unchanged.
     */
    method HandleIssueNoteChange(prefix: string, flag: string, index: int, value: string)
      requires Valid()
      requires prefix in formData && flag in formData[prefix] && 0 <= index < |formData[prefix][flag]|
      modifies this`formData
      ensures Valid()
      ensures formData.Keys == old(formData).Keys && formData[prefix].Keys == old(formData)[prefix].Keys
      ensures forall p :: p in formData && p != prefix ==> formData[p] == old(formData)[p]
      ensures forall f :: f in formData[prefix] && f != flag ==> formData[prefix][f] == old(formData)[prefix][f]
      ensures |formData[prefix][flag]| == |old(formData)[prefix][flag]|
      ensures formData[prefix][flag][index] == IssueNote(value)
      ensures forall j :: 0 <= j < |formData[prefix][flag]| && j != index ==>
                formData[prefix][flag][j] == old(formData)[prefix][flag][j]
      ensures newFlagName == old(newFlagName)
    {
      var flags := formData[prefix];
      var notes := flags[flag];
      notes := notes[index := IssueNote(value)];
      formData := formData[prefix := flags[flag := notes]];
    }

    /** The add-note button: the flag's list grows by one empty note at the end. */
    method AddIssueNote(prefix: string, flag: string)
      requires Valid() && prefix in formData
      modifies this`formData
      ensures Valid()
      ensures formData == WithNoteAdded(old(formData), prefix, flag)
      ensures newFlagName == old(newFlagName)
    {
      WithNoteAddedKeepsNotes(formData, prefix, flag);
      formData := WithNoteAdded(formData, prefix, flag);
    }

    /**
     * The remove-note button: the note at `index` is spliced out only when the
     * flag has more than one note, so no flag ever loses its last note.
     */
    method RemoveIssueNote(prefix: string, flag: string, index: int)
      requires Valid() && prefix in formData && flag in formData[prefix]
      modifies this`formData
      ensures Valid()
      ensures formData.Keys == old(formData).Keys && formData[prefix].Keys == old(formData)[prefix].Keys
      ensures forall p :: p in formData && p != prefix ==> formData[p] == old(formData)[p]
      ensures forall f :: f in formData[prefix] && f != flag ==> formData[prefix][f] == old(formData)[prefix][f]
      ensures formData[prefix][flag] == if |old(formData)[prefix][flag]| > 1
                                         then SpliceOne(old(formData)[prefix][flag], index)
                                         else old(formData)[prefix][flag]
      ensures newFlagName == old(newFlagName)
    {
      var flags := formData[prefix];
      if |flags[flag]| > 1 {
        formData := formData[prefix := flags[flag := SpliceOne(flags[flag], index)]];
      }
    }

    /**
     * The add-flag button: refused, with nothing changed, when the pending
     * name is blank or already a flag; otherwise the name becomes a flag with
     * one empty note and the prefix's pending name is cleared. The duplicate
     * test is the intended one, `AddFlagProblem`; the truthiness test as the
     * source writes it, which also refuses inherited member names such as
     * "toString", is `AddFlagProblemAsWritten`.
     */
    method AddFlag(prefix: string) returns (problem: Option<AddFlagError>)
      requires Valid() && prefix in formData
      modifies this
      ensures Valid()
      ensures problem == AddFlagProblem(old(formData), old(newFlagName), prefix)
      ensures problem.Some? ==> formData == old(formData) && newFlagName == old(newFlagName)
      ensures problem.None? ==> prefix in old(newFlagName)
                                && formData == WithNewFlag(old(formData), prefix, old(newFlagName)[prefix])
                                && newFlagName == old(newFlagName)[prefix := ""]
    {
      problem := AddFlagProblem(formData, newFlagName, prefix);
      if problem.Some? {
        return;
      }
      var name := newFlagName[prefix];
      formData := WithNewFlag(formData, prefix, name);
      newFlagName := newFlagName[prefix := ""];
    }

    /** The remove-flag button: deletes that flag of the prefix and nothing else. */
    method RemoveFlag(prefix: string, flag: string)
      requires Valid() && prefix in formData
      modifies this`formData
      ensures Valid()
      ensures formData.Keys == old(formData).Keys
      ensures formData[prefix] == old(formData)[prefix] - {flag}
      ensures forall p :: p in formData && p != prefix ==> formData[p] == old(formData)[p]
      ensures newFlagName == old(newFlagName)
    {
      var flags := formData[prefix];
      formData := formData[prefix := flags - {flag}];
    }

  }
}
