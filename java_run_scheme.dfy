/**
 * Start-up helpers of the Java run scheme: splitting a jar manifest's
 * Class-Path attribute, splitting a `-javaagent:`-style option into jar path
 * and agent arguments, building the URL list of an agent jar, checking an
 * entry method, retrying native initialisation methods, and caching the main
 * class name.
 */
module JavaRunScheme {
  import opened Wrappers
  import opened JavaStrings

  // ----- splitting a manifest class path -----

  /** The end of the run of non-space characters starting at `i`. */
  function WordEnd(s: string, i: nat): (j: nat)
    requires i <= |s|
    ensures i <= j <= |s|
    ensures forall k :: i <= k < j ==> s[k] != ' '
    ensures j == |s| || s[j] == ' '
    decreases |s| - i
  {
    if i == |s| || s[i] == ' ' then i else WordEnd(s, i + 1)
  }

  /** The maximal runs of non-space characters of `s[i..]`, in order. */
  function FieldsFrom(s: string, i: nat): seq<string>
    requires i <= |s|
    decreases |s| - i
  {
    if i == |s| then []
    else if s[i] == ' ' then FieldsFrom(s, i + 1)
    else
      var j := WordEnd(s, i);
      [s[i..j]] + FieldsFrom(s, j)
  }

  /** The maximal runs of non-space characters of `s`, in order. */
  function Fields(s: string): seq<string>
  {
    FieldsFrom(s, 0)
  }

  /** `s` without its spaces. */
  function RemoveSpaces(s: string): string
  {
    if |s| == 0 then [] else (if s[0] == ' ' then [] else [s[0]]) + RemoveSpaces(s[1..])
  }

  function Concat(ws: seq<string>): string
  {
    if |ws| == 0 then [] else ws[0] + Concat(ws[1..])
  }

  lemma RemoveSpacesAppend(a: string, b: string)
    ensures RemoveSpaces(a + b) == RemoveSpaces(a) + RemoveSpaces(b)
  {
    if |a| > 0 {
      var head := if a[0] == ' ' then [] else [a[0]];
      assert (a + b)[0] == a[0];
      assert (a + b)[1..] == a[1..] + b;
      calc {
        RemoveSpaces(a + b);
        head + RemoveSpaces(a[1..] + b);
        { RemoveSpacesAppend(a[1..], b); }
        head + (RemoveSpaces(a[1..]) + RemoveSpaces(b));
        RemoveSpaces(a) + RemoveSpaces(b);
      }
    } else {
      assert a + b == b;
    }
  }

  lemma RemoveSpacesOfWord(w: string)
    requires ' ' !in w
    ensures RemoveSpaces(w) == w
  {
    if |w| > 0 {
      RemoveSpacesOfWord(w[1..]);
    }
  }

  /** No field is empty or holds a space. */
  lemma {:induction false} FieldsAreWords(s: string, i: nat)
    requires i <= |s|
    ensures forall n :: 0 <= n < |FieldsFrom(s, i)| ==> |FieldsFrom(s, i)[n]| > 0 && ' ' !in FieldsFrom(s, i)[n]
    decreases |s| - i
  {
    if i == |s| {
    } else if s[i] == ' ' {
      FieldsAreWords(s, i + 1);
    } else {
      var j := WordEnd(s, i);
      FieldsAreWords(s, j);
      assert FieldsFrom(s, i) == [s[i..j]] + FieldsFrom(s, j);
    }
  }

  /** Gluing the fields back together gives `s[i..]` without its spaces: no character is lost or added. */
  lemma {:induction false} FieldsConcat(s: string, i: nat)
    requires i <= |s|
    ensures Concat(FieldsFrom(s, i)) == RemoveSpaces(s[i..])
    decreases |s| - i
  {
    if i == |s| {
    } else if s[i] == ' ' {
      FieldsConcat(s, i + 1);
      assert s[i..][1..] == s[i + 1..];
    } else {
      var j := WordEnd(s, i);
      FieldsConcat(s, j);
      assert s[i..] == s[i..j] + s[j..];
      RemoveSpacesAppend(s[i..j], s[j..]);
      RemoveSpacesOfWord(s[i..j]);
      assert FieldsFrom(s, i) == [s[i..j]] + FieldsFrom(s, j);
      assert Concat([s[i..j]] + FieldsFrom(s, j)) == s[i..j] + Concat(FieldsFrom(s, j));
    }
  }

  /** Spaces before position `j` do not change the fields. */
  lemma {:induction false} FieldsSkipSpaces(s: string, i: nat, j: nat)
    requires i <= j <= |s|
    requires forall k :: i <= k < j ==> s[k] == ' '
    ensures FieldsFrom(s, i) == FieldsFrom(s, j)
    decreases j - i
  {
    if i < j {
      FieldsSkipSpaces(s, i + 1, j);
    }
  }

  /** A run of non-spaces ending at a space or at the end is the first field. */
  lemma FieldsTakeWord(s: string, i: nat, j: nat)
    requires i < j <= |s|
    requires forall k :: i <= k < j ==> s[k] != ' '
    requires j == |s| || s[j] == ' '
    ensures FieldsFrom(s, i) == [s[i..j]] + FieldsFrom(s, j)
  {
    WordEndIsRunEnd(s, i, j);
  }

  lemma {:induction false} WordEndIsRunEnd(s: string, i: nat, j: nat)
    requires i <= j <= |s|
    requires forall k :: i <= k < j ==> s[k] != ' '
    requires j == |s| || s[j] == ' '
    ensures WordEnd(s, i) == j
    decreases j - i
  {
    if i < j {
      WordEndIsRunEnd(s, i + 1, j);
    }
  }

  /** Spaces from `i` up to `j`, then a run of non-spaces up to `k`: that run is the next field. */
  lemma NextField(s: string, i: nat, j: nat, k: nat)
    requires i <= j < k <= |s|
    requires forall n :: i <= n < j ==> s[n] == ' '
    requires forall n :: j <= n < k ==> s[n] != ' '
    requires k == |s| || s[k] == ' '
    ensures FieldsFrom(s, i) == [s[j..k]] + FieldsFrom(s, k)
  {
    FieldsSkipSpaces(s, i, j);
    FieldsTakeWord(s, j, k);
  }

  /** The inner loop over a run of spaces. */
  method SkipSpaces(s: string, i: nat) returns (j: nat)
    requires i <= |s|
    ensures i <= j <= |s|
    ensures forall n :: i <= n < j ==> s[n] == ' '
    ensures j == |s| || s[j] != ' '
  {
    j := i;
    while j < |s| && s[j] == ' '
      invariant i <= j <= |s|
      invariant forall n :: i <= n < j ==> s[n] == ' '
    {
      j := j + 1;
    }
  }

  /** The inner loop over a run of non-spaces: it stops where `WordEnd` does. */
  method SkipWord(s: string, i: nat) returns (j: nat)
    requires i <= |s|
    ensures j == WordEnd(s, i)
  {
    j := i;
    while j < |s| && s[j] != ' '
      invariant i <= j <= |s|
      invariant forall n :: i <= n < j ==> s[n] != ' '
    {
      j := j + 1;
    }
    WordEndIsRunEnd(s, i, j);
  }

  /**
   * `jarFileClassPaths`: the trimmed class path as one entry when it holds
   * no space, and otherwise its maximal runs of non-space characters.
   */
  method JarFileClassPaths(classPath: string) returns (result: seq<string>)
    ensures ' ' !in Trim(classPath) ==> result == [Trim(classPath)]
    ensures ' ' in Trim(classPath) ==> result == Fields(Trim(classPath))
  {
    result := [];
    var t := Trim(classPath);
    var sx := IndexOf(t, ' ');
    if sx < 0 {
      result := result + [t];
      return;
    }
    var length := |t|;
    var psx := 0;
    assert !IsTrimmed(t[0]) && !IsTrimmed(t[length - 1]);
    NextField(t, 0, 0, sx);
    while true
      invariant 0 <= psx < sx <= length
      invariant sx == length || t[sx] == ' '
      invariant result + [t[psx..sx]] + FieldsFrom(t, sx) == Fields(t)
      decreases length - sx
    {
      result := result + [t[psx..sx]];
      if sx >= length {
        break;
      }
      var start := sx;
      sx := SkipSpaces(t, sx);
      assert sx < length;
      psx := sx;
      sx := SkipWord(t, sx);
      NextField(t, start, psx, sx);
    }
  }

  /** A class path with spaces splits into non-empty, space-free entries that together hold all its other characters. */
  lemma JarFileClassPathEntries(classPath: string)
    requires ' ' in Trim(classPath)
    ensures forall i :: 0 <= i < |Fields(Trim(classPath))| ==>
      |Fields(Trim(classPath))[i]| > 0 && ' ' !in Fields(Trim(classPath))[i]
    ensures Concat(Fields(Trim(classPath))) == RemoveSpaces(Trim(classPath))
  {
    FieldsAreWords(Trim(classPath), 0);
    FieldsConcat(Trim(classPath), 0);
    assert Trim(classPath)[0..] == Trim(classPath);
  }

  /** The entries as the surrounding loader evidently intends them: a blank class path names no entry. */
  method JarFileClassPathsSkippingBlank(classPath: string) returns (result: seq<string>)
    ensures |Trim(classPath)| == 0 ==> result == []
    ensures forall i :: 0 <= i < |result| ==> |result[i]| > 0 && ' ' !in result[i]
    ensures Concat(result) == RemoveSpaces(Trim(classPath))
  {
    if |Trim(classPath)| == 0 {
      return [];
    }
    result := JarFileClassPaths(classPath);
    if ' ' in Trim(classPath) {
      JarFileClassPathEntries(classPath);
    } else {
      RemoveSpacesOfWord(Trim(classPath));
      assert Concat(result) == Trim(classPath) + Concat([]);
    }
  }

  // ----- errors of the run scheme -----

  datatype RunError =
    | IOException(message: string)
    | ClassNotFoundException(message: string)
    | NoSuchMethodException(message: string)
    | NullPointerException
    | StringIndexOutOfBoundsException
    | FatalError(methodName: string)
    | ProgramError(methodName: string)

  // ----- splitting a jar option -----

  /** What a jar option names: the jar and, after an `=`, the arguments for its agent (none without `=`). */
  datatype JarOption = JarOption(jarPath: string, agentArgs: Option<string>)

  /** The option text after its `:`, as `SplitJarOption` reads it back. */
  function JoinJarOption(o: JarOption): string
  {
    o.jarPath + (if o.agentArgs.Some? then "=" + o.agentArgs.value else "")
  }

  /**
   * The split at the head of `loadJarFile`: the value must be longer than one
   * character and hold a `:`; the jar path runs from after the first `:` to
   * the first `=` after it (or to the end), and the agent arguments follow
   * that `=`.
   */
  function SplitJarOption(optionName: string, value: string): (r: Result<JarOption, RunError>)
    ensures r.Failure? <==> |value| <= 1 || ':' !in value
    ensures r.Failure? ==> r.error == IOException("syntax error in " + optionName + value)
    ensures r.Success? ==>
      var c := IndexOf(value, ':');
      && ':' !in value[..c]
      && value == value[..c + 1] + JoinJarOption(r.value)
      && '=' !in r.value.jarPath
  {
    var c := IndexOf(value, ':');
    if |value| > 1 && c >= 0 then
      var e := IndexOfFrom(value, '=', c);
      SplitAtSeparators(value, c, e);
      if e > 0 then Success(JarOption(value[c + 1..e], Some(value[e + 1..])))
      else Success(JarOption(value[c + 1..], None))
    else Failure(IOException("syntax error in " + optionName + value))
  }

  /** The text around the first `:` and the first `=` after it splits into the prefix and a written jar option. */
  lemma SplitAtSeparators(value: string, c: nat, e: int)
    requires c < |value| && value[c] == ':'
    requires e == -1 || (c <= e < |value| && value[e] == '=' && '=' !in value[c..e])
    requires e == -1 ==> '=' !in value[c..]
    ensures e > 0 ==> c < e && value == value[..c + 1] + JoinJarOption(JarOption(value[c + 1..e], Some(value[e + 1..])))
    ensures e > 0 ==> '=' !in value[c + 1..e]
    ensures e <= 0 ==> value == value[..c + 1] + JoinJarOption(JarOption(value[c + 1..], None)) && '=' !in value[c + 1..]
  {
    if e >= 0 {
      assert value == value[..c + 1] + value[c + 1..e] + "=" + value[e + 1..];
      assert value[c + 1..e] == value[c..e][1..];
    } else {
      assert value == value[..c + 1] + value[c + 1..];
      assert value[c + 1..] == value[c..][1..];
    }
  }

  /** Splitting recovers the jar path and agent arguments an option was written with. */
  lemma SplitJoinJarOption(optionName: string, prefix: string, o: JarOption)
    requires ':' !in prefix && '=' !in o.jarPath
    requires |prefix| + |JoinJarOption(o)| > 0
    ensures SplitJarOption(optionName, prefix + ":" + JoinJarOption(o)) == Success(o)
  {
    var value := prefix + ":" + JoinJarOption(o);
    var c := IndexOf(value, ':');
    assert value[|prefix|] == ':';
    assert value[..|prefix|] == prefix;
    assert c == |prefix|;
    var r := SplitJarOption(optionName, value);
    assert value[..c + 1] == prefix + ":";
    assert value == value[..c + 1] + JoinJarOption(r.value);
    assert JoinJarOption(r.value) == JoinJarOption(o);
    JoinJarOptionInjective(r.value, o);
  }

  lemma JoinJarOptionInjective(a: JarOption, b: JarOption)
    requires '=' !in a.jarPath && '=' !in b.jarPath
    requires JoinJarOption(a) == JoinJarOption(b)
    ensures a == b
  {
    JarOptionFromJoin(a);
    JarOptionFromJoin(b);
  }

  /** The jar path of a written option ends at its first `=`, and the agent arguments follow it. */
  lemma JarOptionFromJoin(o: JarOption)
    requires '=' !in o.jarPath
    ensures var s := JoinJarOption(o);
      var e := IndexOf(s, '=');
      && (e == -1 <==> o.agentArgs.None?)
      && (o.agentArgs.None? ==> o.jarPath == s)
      && (o.agentArgs.Some? ==> e == |o.jarPath| && o.jarPath == s[..e] && o.agentArgs.value == s[e + 1..])
  {
    var s := JoinJarOption(o);
    if o.agentArgs.Some? {
      assert s[|o.jarPath|] == '=';
      assert forall j :: 0 <= j < |o.jarPath| ==> s[j] == o.jarPath[j];
      IndexOfFromIs(s, '=', 0, |o.jarPath|);
      assert s[..|o.jarPath|] == o.jarPath;
    }
  }

  // ----- the URL list of an agent jar -----

  /** A class-path entry as a path: an entry starting with `/` is absolute, any other is relative to the jar's directory. */
  function ResolvePart(parent: string, separator: string, part: string): string
  {
    if |part| > 0 && part[0] == '/' then part else parent + separator + part
  }

  /** The URLs handed to the agent handler: the jar itself, then one per class-path entry. */
  function Urls(jarAbsPath: string, parent: string, separator: string, parts: seq<string>): (urls: seq<string>)
    ensures |urls| == 1 + |parts|
  {
    ["file://" + jarAbsPath] + seq(|parts|, u requires 0 <= u < |parts| => "file://" + ResolvePart(parent, separator, parts[u]))
  }

  predicate HasEmptyPart(parts: seq<string>)
  {
    exists u :: 0 <= u < |parts| && |parts[u]| == 0
  }

  /**
   * The URL loop of `loadJarFile`. With no Class-Path attribute the list holds
   * only the jar; reading the first character of an empty entry throws.
   * `parent` stands for the jar's parent directory and `separator` for the
   * platform's file separator.
   */
  method BuildUrls(jarAbsPath: string, parent: string, separator: string, classPathParts: Option<seq<string>>)
    returns (r: Result<array<string>, RunError>)
    ensures var parts := if classPathParts.Some? then classPathParts.value else [];
      && (r.Failure? <==> HasEmptyPart(parts))
      && (r.Failure? ==> r.error == StringIndexOutOfBoundsException)
      && (r.Success? ==> fresh(r.value) && r.value[..] == Urls(jarAbsPath, parent, separator, parts))
  {
    var parts := if classPathParts.Some? then classPathParts.value else [];
    var urls := new string[if classPathParts.None? then 1 else 1 + |parts|];
    urls[0] := "file://" + jarAbsPath;
    var spec := Urls(jarAbsPath, parent, separator, parts);
    for u := 1 to urls.Length
      invariant urls[..u] == spec[..u]
      invariant forall k :: 0 <= k < u - 1 ==> |parts[k]| > 0
    {
      var classPathPart := parts[u - 1];
      if |classPathPart| == 0 {
        return Failure(StringIndexOutOfBoundsException);
      }
      var absClassPathPart := classPathPart;
      if classPathPart[0] == '/' {
      } else {
        absClassPathPart := parent + separator + classPathPart;
      }
      urls[u] := "file://" + absClassPathPart;
      assert urls[..u + 1] == urls[..u] + [urls[u]];
    }
    assert urls[..] == urls[..urls.Length];
    return Success(urls);
  }

  /**
   * Every URL is a `file://` URL; entry `u` names class-path entry `u - 1`,
   * verbatim when absolute and under the jar's directory otherwise.
   */
  lemma UrlsNameTheirParts(jarAbsPath: string, parent: string, separator: string, parts: seq<string>, u: nat)
    requires 1 <= u <= |parts|
    ensures var url := Urls(jarAbsPath, parent, separator, parts)[u];
      && url[..7] == "file://"
      && url[|url| - |parts[u - 1]|..] == parts[u - 1]
      && (|parts[u - 1]| > 0 && parts[u - 1][0] == '/' ==> url == "file://" + parts[u - 1])
      && (|parts[u - 1]| > 0 && parts[u - 1][0] != '/' ==> url == "file://" + parent + separator + parts[u - 1])
  {
    var url := Urls(jarAbsPath, parent, separator, parts)[u];
    var p := ResolvePart(parent, separator, parts[u - 1]);
    assert url == "file://" + p;
    assert url[|url| - |parts[u - 1]|..] == p[|p| - |parts[u - 1]|..];
  }

  /** A blank Class-Path attribute yields one empty entry, so building the URL list throws. */
  lemma BlankClassPathBreaksUrls(classPath: string)
    requires forall k :: 0 <= k < |classPath| ==> IsTrimmed(classPath[k])
    ensures Trim(classPath) == [] && ' ' !in Trim(classPath)
    ensures HasEmptyPart([Trim(classPath)])
  {
    assert |[Trim(classPath)][0]| == 0;
  }

  /** With the blank class path skipped, the URL list is always built. */
  lemma SkippingBlankBuildsUrls(parts: seq<string>)
    requires forall i :: 0 <= i < |parts| ==> |parts[i]| > 0 && ' ' !in parts[i]
    ensures !HasEmptyPart(parts)
  {
  }

  // ----- the entry-method check -----

  /** A declared method: its name, parameter types, and the modifiers the check reads. */
  datatype DeclaredMethod = DeclaredMethod(name: string, params: seq<string>, isPublic: bool, isStatic: bool, returnsVoid: bool)

  predicate IsEntryMethod(m: DeclaredMethod)
  {
    m.isPublic && m.isStatic && m.returnsVoid
  }

  /** The first declared method with the given name and parameter types, as a reflective lookup finds it. */
  function FindDeclared(methods: seq<DeclaredMethod>, name: string, params: seq<string>): (r: Option<nat>)
    ensures r.Some? ==> r.value < |methods| && methods[r.value].name == name && methods[r.value].params == params
    ensures r.Some? ==> forall i :: 0 <= i < r.value ==> !(methods[i].name == name && methods[i].params == params)
    ensures r.None? <==> forall i :: 0 <= i < |methods| ==> !(methods[i].name == name && methods[i].params == params)
  {
    if |methods| == 0 then None
    else if methods[0].name == name && methods[0].params == params then Some(0)
    else
      var rest := FindDeclared(methods[1..], name, params);
      if rest.Some? then Some(rest.value + 1) else None
  }

  /** `lookupMainOrAgentClass`: the declared method, only when it is public, static and void. */
  function LookupMainOrAgentClass(methods: seq<DeclaredMethod>, name: string, params: seq<string>): (r: Result<DeclaredMethod, RunError>)
    ensures r.Success? ==> r.value in methods && r.value.name == name && r.value.params == params && IsEntryMethod(r.value)
    ensures r.Failure? ==> r.error == NoSuchMethodException(name)
    ensures (forall m :: m in methods ==> !(m.name == name && m.params == params)) ==> r.Failure?
  {
    var i := FindDeclared(methods, name, params);
    if i.None? then Failure(NoSuchMethodException(name))
    else
      var m := methods[i.value];
      if !m.isPublic || !m.isStatic || !m.returnsVoid then Failure(NoSuchMethodException(name))
      else Success(m)
  }

  predicate UniqueSignatures(methods: seq<DeclaredMethod>)
  {
    forall i, j :: 0 <= i < j < |methods| ==> !(methods[i].name == methods[j].name && methods[i].params == methods[j].params)
  }

  /** In a class whose signatures are unique, the lookup succeeds exactly when the method is declared public, static and void. */
  lemma LookupFindsEntryMethod(methods: seq<DeclaredMethod>, name: string, params: seq<string>)
    requires UniqueSignatures(methods)
    ensures LookupMainOrAgentClass(methods, name, params).Success? <==>
      exists m :: m in methods && m.name == name && m.params == params && IsEntryMethod(m)
  {
    var i := FindDeclared(methods, name, params);
    if m :| m in methods && m.name == name && m.params == params && IsEntryMethod(m) {
      var k :| 0 <= k < |methods| && methods[k] == m;
      assert i.Some?;
      assert i.value == k by {
        if i.value < k {
        } else if k < i.value {
        }
      }
    }
  }

  // ----- native initialisation methods -----

  /** How invoking a native initialisation method ends. */
  datatype InvokeOutcome =
    | Returned
    | UnsatisfiedLink                    // UnsatisfiedLinkError thrown directly
    | TargetException(linkError: bool)   // an InvocationTargetException, wrapping an UnsatisfiedLinkError or not
    | OtherThrowable

  /** A native initialisation method: whether it is compiled into the boot image, and how its invocation ends. */
  datatype NativeInitMethod = NativeInitMethod(name: string, compiled: bool, outcome: InvokeOutcome)

  /** The method's library is not there yet: it is kept for the next run. */
  predicate Retries(m: NativeInitMethod)
  {
    m.compiled && (m.outcome.UnsatisfiedLink? || (m.outcome.TargetException? && m.outcome.linkError))
  }

  predicate IsFatal(m: NativeInitMethod)
  {
    !m.compiled || m.outcome.OtherThrowable? || (m.outcome.TargetException? && !m.outcome.linkError)
  }

  function FatalFor(m: NativeInitMethod): RunError
  {
    if !m.compiled then FatalError(m.name) else ProgramError(m.name)
  }

  /** The methods kept for the next run, in order: only methods that retry, never more than were run. */
  function RetryList(ms: seq<NativeInitMethod>): (kept: seq<NativeInitMethod>)
    ensures |kept| <= |ms|
    ensures forall i :: 0 <= i < |kept| ==> Retries(kept[i])
    ensures |kept| == |ms| <==> forall i :: 0 <= i < |ms| ==> Retries(ms[i])
  {
    if |ms| == 0 then [] else (if Retries(ms[0]) then [ms[0]] else []) + RetryList(ms[1..])
  }

  /** The error of the first method that ends the run, if any: none exactly when no method is fatal. */
  function FirstFatal(ms: seq<NativeInitMethod>): (r: Option<RunError>)
    ensures r.None? <==> forall i :: 0 <= i < |ms| ==> !IsFatal(ms[i])
    ensures r.Some? && |ms| > 0 && IsFatal(ms[0]) ==> r.value == FatalFor(ms[0])
  {
    if |ms| == 0 then None
    else if IsFatal(ms[0]) then Some(FatalFor(ms[0]))
    else FirstFatal(ms[1..])
  }

  lemma {:induction false} RetryListAppend(a: seq<NativeInitMethod>, b: seq<NativeInitMethod>)
    ensures RetryList(a + b) == RetryList(a) + RetryList(b)
  {
    if |a| > 0 {
      assert (a + b)[1..] == a[1..] + b;
      RetryListAppend(a[1..], b);
    } else {
      assert a + b == b;
    }
  }

  lemma {:induction false} FirstFatalAppend(a: seq<NativeInitMethod>, b: seq<NativeInitMethod>)
    ensures FirstFatal(a + b) == if FirstFatal(a).Some? then FirstFatal(a) else FirstFatal(b)
  {
    if |a| > 0 {
      assert (a + b)[0] == a[0];
      assert (a + b)[1..] == a[1..] + b;
      FirstFatalAppend(a[1..], b);
    } else {
      assert a + b == b;
    }
  }

  /** A method is kept exactly when it was in the list and its library was missing. */
  lemma {:induction false} RetryListMembers(ms: seq<NativeInitMethod>, m: NativeInitMethod)
    ensures m in RetryList(ms) <==> m in ms && Retries(m)
  {
    if |ms| > 0 {
      RetryListMembers(ms[1..], m);
      assert ms == [ms[0]] + ms[1..];
    }
  }

  // ----- the run scheme's state -----

  class RunScheme {
    /** The native initialisation methods still to be run. */
    var initIDMethods: seq<NativeInitMethod>
    /** The cached main class name. */
    var mainClassName: Option<string>
    /** The `sun.java.command` system property. */
    var javaCommand: Option<string>

    constructor(methods: seq<NativeInitMethod>)
      ensures initIDMethods == methods && mainClassName == None && javaCommand == None
    {
      initIDMethods := methods;
      mainClassName := None;
      javaCommand := None;
    }

    /**
     * `runNativeInitializationMethods`: runs every method; those whose library
     * is missing are kept, in order, for the next run. A method not compiled
     * into the boot image, or any other throwable, ends the run.
     */
    method RunNativeInitializationMethods() returns (r: Result<(), RunError>)
      modifies this
      ensures FirstFatal(old(initIDMethods)).None? ==> r.Success? && initIDMethods == RetryList(old(initIDMethods))
      ensures FirstFatal(old(initIDMethods)).Some? ==>
        r == Failure(FirstFatal(old(initIDMethods)).value) && initIDMethods == old(initIDMethods)
      ensures mainClassName == old(mainClassName) && javaCommand == old(javaCommand)
    {
      var ms := initIDMethods;
      var methods: seq<NativeInitMethod> := [];
      for i := 0 to |ms|
        invariant FirstFatal(ms[..i]).None?
        invariant methods == RetryList(ms[..i])
        invariant unchanged(this)
      {
        var nativeMethod := ms[i];
        FirstFatalAppend(ms[..i], [nativeMethod]);
        RetryListAppend(ms[..i], [nativeMethod]);
        assert ms[..i + 1] == ms[..i] + [nativeMethod];
        if !nativeMethod.compiled {
          FatalAt(ms, i);
          return Failure(FatalError(nativeMethod.name));
        }
        match nativeMethod.outcome {
          case Returned =>
          case UnsatisfiedLink =>
            methods := methods + [nativeMethod];
          case TargetException(linkError) =>
            if linkError {
              methods := methods + [nativeMethod];
            } else {
              FatalAt(ms, i);
              return Failure(ProgramError(nativeMethod.name));
            }
          case OtherThrowable =>
            FatalAt(ms, i);
            return Failure(ProgramError(nativeMethod.name));
        }
      }
      assert ms[..|ms|] == ms;
      initIDMethods := methods;
      r := Success(());
    }

    /**
     * `getMainClassName`: the cached name once there is one; otherwise the
     * name given on the command line, or the jar's Main-Class attribute when a
     * jar is run. The jar is given by its name and the attribute it holds.
     */
    method GetMainClassName(jarFileName: Option<string>, commandLineMain: Option<string>, mainClassAttribute: Option<string>)
      returns (r: Result<string, RunError>)
      modifies this
      ensures old(mainClassName).Some? ==>
        r == Success(old(mainClassName).value) && mainClassName == old(mainClassName) && javaCommand == old(javaCommand)
      ensures old(mainClassName).None? ==>
        var found := if jarFileName.None? then commandLineMain else mainClassAttribute;
        && mainClassName == found
        && (found.Some? ==> r == Success(found.value) && javaCommand == found)
        && (found.None? && jarFileName.Some? ==>
              r == Failure(ClassNotFoundException("Could not find main class in jarfile: " + jarFileName.value)))
        && (found.None? && jarFileName.None? ==> r == Failure(NullPointerException))
        && (found.None? ==> javaCommand == old(javaCommand))
      ensures initIDMethods == old(initIDMethods)
    {
      if mainClassName.None? {
        if jarFileName.None? {
          mainClassName := commandLineMain;
        } else {
          mainClassName := mainClassAttribute;
          if mainClassName.None? {
            return Failure(ClassNotFoundException("Could not find main class in jarfile: " + jarFileName.value));
          }
        }
        if mainClassName.None? {
          return Failure(NullPointerException);
        }
        javaCommand := mainClassName;
      }
      return Success(mainClassName.value);
    }
  }

  /** The first fatal method of a list decides the run's error. */
  lemma FatalAt(ms: seq<NativeInitMethod>, i: nat)
    requires i < |ms| && FirstFatal(ms[..i]).None? && IsFatal(ms[i])
    ensures FirstFatal(ms) == Some(FatalFor(ms[i]))
  {
    assert ms == ms[..i] + ms[i..];
    FirstFatalAppend(ms[..i], ms[i..]);
  }

  /** Once cached, the main class name never changes: a second query answers the first one's name. */
  method MainClassNameIsCached(scheme: RunScheme, jar: Option<string>, main: Option<string>, attribute: Option<string>,
                               jar2: Option<string>, main2: Option<string>, attribute2: Option<string>)
    returns (first: Result<string, RunError>, second: Result<string, RunError>)
    modifies scheme
    ensures first.Success? ==> second == first
  {
    first := scheme.GetMainClassName(jar, main, attribute);
    second := scheme.GetMainClassName(jar2, main2, attribute2);
  }
}
