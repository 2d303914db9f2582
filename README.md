# remote-method-guesser: registry client, wordlist handler and remote object wrapper

This project is a Dafny model of three parts of remote-method-guesser, a tool
that enumerates and attacks Java RMI endpoints. It also proves properties of
that model.

- **The RMI registry client** (`registry_client.dfy`, module `RegistryClient`).
  - It turns a registry method name (`bind`, `list`, `lookup`, `rebind`,
    `unbind`) into the address of a call. There are two wire conventions:
    - the legacy one: the operation number is the call index, sent with the
      interface hash;
    - the localhost-bypass one (CVE-2019-2684): operation number -1, sent with
      the method's own hash.
  - It packs the call arguments.
  - Each probe and registry operation sends at most one call and turns its
    outcome into a report. A probe that cannot work on the registry, or a
    method without an argument layout, sends nothing. The probes are bind, rebind, unbind, the
    useCodebaseOnly enumeration, the String-marshalling enumeration, the
    localhost-bypass enumeration, the JEP 290 bypass enumeration, the gadget
    call and the codebase call.
  - The remote side is a function from the sent call to its outcome. The
    outcome is one of:
    - a normal return;
    - a `ServerException` together with its root cause;
    - an exception thrown locally.
  - The probe's catch chain is a total function from that outcome to a
    `Report`. The `Report` stands for what the tool prints and for the
    exceptions that escape.
  - `Resolve` is the receiving registry's view of a call, written only to
    prove that both conventions address the intended method.
  - The static codebase override of the malicious output stream is an object
    of its own, `CodebaseOverride`.
- **The wordlist handler** (`wordlist.dfy`, module `Wordlist`).
  - It parses wordlist lines into method candidates: comments and blank lines
    are skipped, the line is normalised, split on `;`, and gives the simple
    format (one field) or the advanced format (four fields).
  - It loads one file, every wordlist file of a folder, or the two built-in
    wordlists, and chooses between them.
  - It rewrites a file in the advanced format.
  - A method candidate is a type parameter. Its two constructors and its
    `convertToString` are supplied as a `Codec`; either constructor may fail.
  - The file system is a `FileStore` object:
    - file contents, as lines;
    - the wordlist files of each folder;
    - the built-in resources.
- **The remote object wrapper** (`remote_object_wrapper.dfy`, module
  `RemoteObjects`).
  - The wrapper class and its `host:port` target.
  - The duplicate list and the static helpers over arrays of wrappers.
  - `handleDuplicates` groups wrappers by class name. It is specified by the
    functions `Unique` (the representatives) and `Dups` (what each
    representative receives), and the properties are proved about those.
- **Java string operations** the core relies on (`java_strings.dfy`, module
  `JavaStrings`): `trim`, `split` with Java's removal of trailing empty
  fields, the three `replaceAll` rewrites of the wordlist parser, `contains`,
  `startsWith`, and decimal rendering of an `int`.

## Model

| member | source | states |
|---|---|---|
| RegistryClient.CallIndex | src/de/qtc/rmg/operations/RegistryClient.java:627-645 | a call index exists exactly for the five registry methods, and it is that method's position in the Registry interface order |
| RegistryClient.MethodHash | src/de/qtc/rmg/operations/RegistryClient.java:654-672 | a method hash exists exactly for the five registry methods and never equals the interface hash, so the two conventions cannot be confused |
| RegistryClient.MethodHashInjective | src/de/qtc/rmg/operations/RegistryClient.java:656-666 | distinct registry methods have distinct method hashes |
| RegistryClient.Target | src/de/qtc/rmg/operations/RegistryClient.java:609-612 | every call goes to the registry object; under the bypass convention it carries operation number -1 and the method's own hash, otherwise the method's call index and the interface hash |
| RegistryClient.TargetRoundTrip | src/de/qtc/rmg/operations/RegistryClient.java:606-613 | a receiving registry resolves either convention's address back to the method it was built for, and can tell which convention was used |
| RegistryClient.PackArgs | src/de/qtc/rmg/operations/RegistryClient.java:683-704 | an argument layout exists exactly for bind, rebind, lookup and unbind; its length is the method's arity; the payload is the last argument, written as Object; two-argument layouts start with the bound name "rmg" |
| RegistryClient.MessageTest | src/de/qtc/rmg/operations/RegistryClient.java:86 | `t instanceof K && t.getMessage().contains(s)` holds exactly for a matching class whose message contains s, and throws exactly for a matching class with a null message |
| RegistryClient.Surfaced | src/de/qtc/rmg/operations/RegistryClient.java:614-616 | a local NoSuchObjectException is absorbed and looks like a normal return; any other outcome reaches the probe unchanged |
| RegistryClient.Fallback | src/de/qtc/rmg/operations/RegistryClient.java:107-109 | `catch (Exception e)` reports an unexpected exception for every exception, and any java.lang.Error (ClassFormatError, its subclass, or another Error), which the clause does not catch, escapes |
| RegistryClient.Branch | src/de/qtc/rmg/operations/RegistryClient.java:86-102 | one message-testing branch of a catch chain: a null message escapes, a match takes the branch, anything else falls through |
| RegistryClient.AccessDenied | src/de/qtc/rmg/operations/RegistryClient.java:86-90 | the two access-denied tests come first: a non-AccessException falls through, a null message escapes, "non-local host" wins over "Cannot modify this registry", which reports a single-entry registry; an AccessException with neither message falls through |
| RegistryClient.StringMarshallingReport | src/de/qtc/rmg/operations/RegistryClient.java:318-375 | the report is the default verdict, undecided or outdated, each exactly under its causes (outdated through either ClassNotFound "DefinitelyNonExistingClass" on the server or the local Integer-to-String ClassCastException); no other report is possible except unexpected or an escaping exception |
| RegistryClient.CodebaseReport | src/de/qtc/rmg/operations/RegistryClient.java:244-283 | non-default exactly on a server-side MalformedURLException; default exactly on a ClassCastException on either side; non-localhost exactly on an AccessException saying "non-local host" |
| RegistryClient.LocalhostBypassReport | src/de/qtc/rmg/operations/RegistryClient.java:395-422 | vulnerable exactly when the unbind reaches the registry and fails with NotBoundException; not vulnerable exactly on "non-local host"; single-entry registry exactly on "Cannot modify this registry" without "non-local host" |
| RegistryClient.Jep290BypassReport | src/de/qtc/rmg/operations/RegistryClient.java:462-492 | vulnerable exactly on a local IllegalArgumentException; patched exactly on a server-side RemoteException that is not an access denial (and not an AccessException with a null message); non-localhost and single-entry registry each exactly under its message; success exactly on a normal return; nothing else but unexpected or an escaping exception |
| RegistryClient.BindReport | src/de/qtc/rmg/operations/RegistryClient.java:66-161 | for bind and rebind: success exactly on a normal return; stub class missing exactly on a server-side ClassNotFoundException; already bound, on either side, only for bind; non-localhost exactly on "non-local host"; single-entry registry exactly on "Cannot modify this registry" without it; nothing else but unexpected or an escaping exception |
| RegistryClient.UnbindReport | src/de/qtc/rmg/operations/RegistryClient.java:180-205 | success exactly on a normal return; not bound exactly on a local NotBoundException; non-localhost exactly on "non-local host"; single-entry registry exactly on "Cannot modify this registry" without it; nothing else but unexpected or an escaping exception |
| RegistryClient.GadgetReport | src/de/qtc/rmg/operations/RegistryClient.java:509-540 | filter rejection exactly on InvalidClassException; class not found exactly on ClassNotFoundException; class cast exactly on a ClassCastException on either side, flagged when the method is lookup; "patched" exactly on a RemoteException saying "Method is not Remote"; unknown deserialization exactly on any other server-side cause whose message test does not throw; success exactly on a normal return; nothing else but unexpected or an escaping exception |
| RegistryClient.CodebaseCallReport | src/de/qtc/rmg/operations/RegistryClient.java:556-592 | invalid class, unsupported class version (ClassFormatError and its subclass), security manager ("RMI class loader disabled"), class not found (message names the payload class), class cast (flagged when the method is lookup) and access control, each exactly under its cause and in catch order; success exactly on a normal return; nothing else but unexpected or an escaping exception |
| RegistryClient.LookupUseless | src/de/qtc/rmg/operations/RegistryClient.java:235 | the codebase and JEP 290 probes skip exactly a lookup (call index 2) against a registry that reads Strings with readString, whose only argument is that String |
| RegistryClient.Endpoint.GenericCall | src/de/qtc/rmg/operations/RegistryClient.java:610-612 | the call is appended to the calls sent and its outcome is the server's answer to it |
| RegistryClient.CodebaseOverride.SetDefaultLocation | src/de/qtc/rmg/operations/RegistryClient.java:242 | the override location becomes the given URL |
| RegistryClient.CodebaseOverride.ResetDefaultLocation | src/de/qtc/rmg/operations/RegistryClient.java:284-287 | the override is cleared |
| RegistryClient.Client.constructor | src/de/qtc/rmg/operations/RegistryClient.java:49-52 | the client talks to the given endpoint |
| RegistryClient.Client.RegistryCall | src/de/qtc/rmg/operations/RegistryClient.java:606-617 | exactly one call is sent, addressed by Target; the override applies only to the malicious stream; the probe sees the surfaced outcome |
| RegistryClient.Client.BindObject | src/de/qtc/rmg/operations/RegistryClient.java:66-110 | one bind call with (bound name, payload) under the chosen convention; the report is BindReport of its outcome |
| RegistryClient.Client.RebindObject | src/de/qtc/rmg/operations/RegistryClient.java:124-162 | one rebind call with (bound name, payload); the report is the rebind row of BindReport |
| RegistryClient.Client.UnbindObject | src/de/qtc/rmg/operations/RegistryClient.java:171-206 | one unbind call with the bound name; the report is UnbindReport of its outcome |
| RegistryClient.Client.EnumCodebase | src/de/qtc/rmg/operations/RegistryClient.java:229-288 | lookup against a readString registry sends nothing and leaves the override alone; otherwise the Integer 0 goes out with the "InvalidURL" annotation, the report is CodebaseReport, and the override is cleared on every path |
| RegistryClient.Client.EnumerateStringMarshalling | src/de/qtc/rmg/operations/RegistryClient.java:307-378 | one legacy lookup with Integer 0 through the malicious stream; the result flag is true exactly when the report is "outdated" (Strings read with readObject) |
| RegistryClient.Client.EnumLocalhostBypass | src/de/qtc/rmg/operations/RegistryClient.java:386-426 | one unbind of a name no registry holds, always under the bypass convention; the report is LocalhostBypassReport |
| RegistryClient.Client.EnumJep290Bypass | src/de/qtc/rmg/operations/RegistryClient.java:441-496 | the lookup short-circuit sends nothing; an unpackable method sends nothing; otherwise the gadget is sent as the method's payload and the report is Jep290BypassReport |
| RegistryClient.Client.GadgetCall | src/de/qtc/rmg/operations/RegistryClient.java:505-541 | an unpackable method sends nothing; otherwise one call carrying the payload, reported by GadgetReport |
| RegistryClient.Client.CodebaseCall | src/de/qtc/rmg/operations/RegistryClient.java:551-593 | an unpackable method sends nothing; otherwise one call through the malicious stream with the current override, reported by CodebaseCallReport against the payload's class name |
| JavaStrings.Trim | src/de/qtc/rmg/io/WordlistHandler.java:158 | the result is a contiguous slice of the input with no blank at either end, and it is empty exactly when the input is all blanks |
| JavaStrings.Split | src/de/qtc/rmg/io/WordlistHandler.java:163 | without the separator the result is the whole string; otherwise it is the separator-free fields with the trailing empty ones dropped |
| JavaStrings.SplitJoin | src/de/qtc/rmg/io/WordlistHandler.java:163 | splitting separator-free fields joined by the separator gives the fields back (when the last field is not empty) |
| JavaStrings.SplitJoinDropped | src/de/qtc/rmg/io/WordlistHandler.java:163 | splitting two or more separator-free fields joined by the separator gives the fields with the trailing empty ones dropped |
| JavaStrings.CollapseSpaces | src/de/qtc/rmg/io/WordlistHandler.java:162 | `replaceAll(" +", " ")`: no two spaces remain adjacent and nothing but spaces changes |
| JavaStrings.NormaliseCommas | src/de/qtc/rmg/io/WordlistHandler.java:162 | `replaceAll(" *, *", ", ")`: every comma is followed by exactly one space and nothing but spaces changes |
| JavaStrings.StripGenerics | src/de/qtc/rmg/io/WordlistHandler.java:162 | `replaceAll("\<[^>]+\>", "")`: every character of the result comes from the input, a string without '<' is unchanged, a first character other than '<' is kept, and no removable '<'…'>' group is left behind |
| JavaStrings.StripGenericsDeletes | src/de/qtc/rmg/io/WordlistHandler.java:162 | the generics rewrite only deletes: its result is a subsequence of its input |
| JavaStrings.ParseInt | src/de/qtc/rmg/utils/RemoteObjectWrapper.java:121 | only the canonical decimal rendering of an int is accepted (no leading zeros, no "-0"), and it reads back to the string it came from |
| JavaStrings.IntToStringRoundTrip | src/de/qtc/rmg/utils/RemoteObjectWrapper.java:121 | the decimal rendering of an int reads back as that int |
| Wordlist.Normalise | src/de/qtc/rmg/io/WordlistHandler.java:162 | on a line without generics, normalising changes spacing only and leaves every comma followed by one space |
| Wordlist.ParseLine | src/de/qtc/rmg/io/WordlistHandler.java:156-181 | comments and blank lines yield nothing; a normalised line without ';' yields the simple candidate of its trimmed text |
| Wordlist.AdvancedLine | src/de/qtc/rmg/io/WordlistHandler.java:169-170 | a line that normalises to ';'-separated fields, four of them once Java's split drops the trailing empty ones, yields the advanced candidate of the four trimmed fields |
| Wordlist.OneFieldLine | src/de/qtc/rmg/io/WordlistHandler.java:163-167 | a line with a ';' that splits to one field once trailing empty fields are dropped (a signature copied with its semicolon, "void m(int a);") yields the simple candidate of that trimmed field |
| Wordlist.UnknownFormatSkipped | src/de/qtc/rmg/io/WordlistHandler.java:172-175 | a line with a ';' whose field count, trailing empty fields dropped, is neither one nor four (e.g. "a;b;c", "a;b;" or ";") yields nothing |
| Wordlist.CandidatesMember | src/de/qtc/rmg/io/WordlistHandler.java:152-185 | a candidate is in the parsed set exactly when some line parses to it |
| Wordlist.CandidatesAppend | src/de/qtc/rmg/io/WordlistHandler.java:156-181 | parsing distributes over concatenating line lists |
| Wordlist.LineSkipped | src/de/qtc/rmg/io/WordlistHandler.java:158-160 | a line that yields nothing (comment, unknown format, failing constructor) does not change the result |
| Wordlist.ParseMethods | src/de/qtc/rmg/io/WordlistHandler.java:152-185 | the loop builds exactly the candidate set of the lines |
| Wordlist.ListingAdd | src/de/qtc/rmg/io/WordlistHandler.java:197-199 | writing one more candidate's line extends a listing of the written candidates; a listing pairs each line with one candidate, each candidate used exactly once |
| Wordlist.ListingLength | src/de/qtc/rmg/io/WordlistHandler.java:194-202 | a rewritten wordlist has exactly one line per candidate |
| Wordlist.ListingRoundTrip | src/de/qtc/rmg/io/WordlistHandler.java:194-202 | when each candidate's convertToString parses back to it, re-reading a rewritten wordlist gives exactly the candidates written |
| Wordlist.UpdateWordlist | src/de/qtc/rmg/io/WordlistHandler.java:194-202 | only the given file changes, and afterwards it holds one line per candidate and nothing else |
| Wordlist.FileResult | src/de/qtc/rmg/io/WordlistHandler.java:122-139 | reading a file fails exactly when the file does not exist |
| Wordlist.GetWordlistMethodsFromFile | src/de/qtc/rmg/io/WordlistHandler.java:122-139 | the result is the candidate set of the file's original lines; the file is rewritten as their listing only when asked to, and nothing else changes |
| Wordlist.UnionOfMember | src/de/qtc/rmg/io/WordlistHandler.java:103-106 | an accumulated union holds a candidate exactly when one of its parts does |
| Wordlist.UnionOverMember | src/de/qtc/rmg/io/WordlistHandler.java:93-109 | a folder's result holds a candidate exactly when some line of some wordlist file of the folder parses to it |
| Wordlist.FolderStep | src/de/qtc/rmg/io/WordlistHandler.java:104-106 | reading the next file of a folder keeps the other files unchanged and the rewritten ones rewritten |
| Wordlist.FolderResult | src/de/qtc/rmg/io/WordlistHandler.java:93-109 | the folder load succeeds exactly when the path is a folder and every listed file can be read; a read failure names a listed file that cannot be read |
| Wordlist.GetWordlistMethodsFromFolder | src/de/qtc/rmg/io/WordlistHandler.java:93-109 | the result is FolderResult of the files before any rewrite: not a directory before anything is read, else the IOException of the first listed file that cannot be read, else the union over the folder's files; the files listed before that point, and only they, have been read and (only when asked to) rewritten, each to the listing of its own candidates; nothing outside the folder changes |
| Wordlist.BuiltInResult | src/de/qtc/rmg/io/WordlistHandler.java:67-85 | loading the built-in lists fails exactly when one of them is missing, and then names a built-in list |
| Wordlist.BuiltInMember | src/de/qtc/rmg/io/WordlistHandler.java:67-85 | the built-in candidates are exactly what some line of rmg.txt or rmiscout.txt, split on newlines, parses to |
| Wordlist.GetWordlistMethodsFromStream | src/de/qtc/rmg/io/WordlistHandler.java:67-85 | the loop over the built-in lists gives BuiltInResult |
| Wordlist.SelectSource | src/de/qtc/rmg/io/WordlistHandler.java:54-65 | a non-null non-empty file wins; otherwise a non-null non-empty folder; otherwise the built-in lists |
| Wordlist.WordlistHandler.constructor | src/de/qtc/rmg/io/WordlistHandler.java:40-45 | the handler keeps the file, the folder and the update flag it is given |
| Wordlist.WordlistHandler.GetWordlistMethods | src/de/qtc/rmg/io/WordlistHandler.java:54-65 | the result is what the selected source holds before any rewrite; nothing is rewritten without the update flag or from the built-in lists; a file source that fails changes nothing, and one that loads under the update flag changes only that file, into the listing of the result; a folder source keeps the set of files and changes no file outside the folder; under the update flag, the listed files before the first unreadable one are rewritten into the listing of their own candidates, and on success every file of the folder is |
| RemoteObjects.TargetRoundTrip | src/de/qtc/rmg/utils/RemoteObjectWrapper.java:119-122 | "host:port" reads back as the endpoint, even when the host contains colons |
| RemoteObjects.RemoteObjectWrapper.GetTarget | src/de/qtc/rmg/utils/RemoteObjectWrapper.java:119-122 | the target starts with the host and a colon, and the endpoint can be read back from it |
| RemoteObjects.RemoteObjectWrapper.FromBoundName | src/de/qtc/rmg/utils/RemoteObjectWrapper.java:45-48 | only the bound name is set; class name, endpoint and duplicate list stay null |
| RemoteObjects.RemoteObjectWrapper.Resolved | src/de/qtc/rmg/utils/RemoteObjectWrapper.java:68-92 | a looked-up object's wrapper carries its class name and endpoint and starts with an empty duplicate list |
| RemoteObjects.RemoteObjectWrapper.AddDuplicate | src/de/qtc/rmg/utils/RemoteObjectWrapper.java:144-147 | the wrapper is appended to the duplicate list |
| RemoteObjects.RemoteObjectWrapper.GetDuplicateBoundNames | src/de/qtc/rmg/utils/RemoteObjectWrapper.java:154-162 | one bound name per duplicate, in list order |
| RemoteObjects.RemoteObjectWrapper.GetByName | src/de/qtc/rmg/utils/RemoteObjectWrapper.java:172-181 | null exactly when no non-null wrapper has the name; otherwise the first wrapper that has it |
| RemoteObjects.RemoteObjectWrapper.HasDuplicates | src/de/qtc/rmg/utils/RemoteObjectWrapper.java:130-136 | true exactly when the duplicate list holds some wrapper |
| RemoteObjects.RemoteObjectWrapper.HasDuplicatesIn | src/de/qtc/rmg/utils/RemoteObjectWrapper.java:216-225 | true exactly when some wrapper of the list has a non-empty duplicate list |
| RemoteObjects.RemoteObjectWrapper.FromBoundNames | src/de/qtc/rmg/utils/RemoteObjectWrapper.java:235-243 | a fresh array of fresh bound-name-only wrappers, one per name at the same index |
| RemoteObjects.RemoteObjectWrapper.JoinRepresentative | src/de/qtc/rmg/utils/RemoteObjectWrapper.java:196-202 | current joins the first representative of its class, if any, and no other duplicate list changes; -1 exactly when no representative has its class |
| RemoteObjects.RemoteObjectWrapper.PlaceWrapper | src/de/qtc/rmg/utils/RemoteObjectWrapper.java:194-205 | one outer iteration takes the representatives and every duplicate list from the first i wrappers' specification to the first i + 1's |
| RemoteObjects.RemoteObjectWrapper.HandleDuplicates | src/de/qtc/rmg/utils/RemoteObjectWrapper.java:190-208 | the result is the representatives in first-seen order, and every wrapper's duplicate list is its old list plus the later wrappers of its class that it represents |
| RemoteObjects.UniqueDistinct | src/de/qtc/rmg/utils/RemoteObjectWrapper.java:190-208 | the representatives have pairwise distinct class names |
| RemoteObjects.UniqueFromList | src/de/qtc/rmg/utils/RemoteObjectWrapper.java:190-208 | the representatives are wrappers of the list and no more than it holds |
| RemoteObjects.UniqueCovers | src/de/qtc/rmg/utils/RemoteObjectWrapper.java:190-208 | every class name of the list has a representative |
| RemoteObjects.StepToRepresentative | src/de/qtc/rmg/utils/RemoteObjectWrapper.java:196-201 | a wrapper whose class is represented changes only that representative's duplicates |
| RemoteObjects.StepNewRepresentative | src/de/qtc/rmg/utils/RemoteObjectWrapper.java:204 | a wrapper of an unrepresented class becomes a representative and changes no duplicate list |
| RemoteObjects.FirstIsRepresentative | src/de/qtc/rmg/utils/RemoteObjectWrapper.java:190-208 | the first wrapper of each class is kept in the result |
| RemoteObjects.LaterIsDuplicate | src/de/qtc/rmg/utils/RemoteObjectWrapper.java:190-208 | a later wrapper of a class already seen lands in the duplicates of that class's representative |
| RemoteObjects.DupsOfClass | src/de/qtc/rmg/utils/RemoteObjectWrapper.java:190-208 | a representative receives only wrappers of the list with its own class name, and a non-representative receives none |
| RemoteObjects.DistinctUnchanged | src/de/qtc/rmg/utils/RemoteObjectWrapper.java:190-208 | with pairwise distinct class names the list is returned as it is and nothing becomes a duplicate |
| RemoteObjects.LaterNotRepresentative | src/de/qtc/rmg/utils/RemoteObjectWrapper.java:196-201 | for a list of distinct wrappers, a wrapper whose class name occurs earlier is not kept in the result |
| RemoteObjects.DuplicateNotRepresentative | src/de/qtc/rmg/utils/RemoteObjectWrapper.java:190-208 | for a list of distinct wrappers, no duplicate is also a representative |
| RemoteObjects.DupsDistinct | src/de/qtc/rmg/utils/RemoteObjectWrapper.java:196-201 | for a list of distinct wrappers, no wrapper is appended twice to one duplicate list |
| RemoteObjects.DupsOwner | src/de/qtc/rmg/utils/RemoteObjectWrapper.java:196-201 | a wrapper in two duplicate lists is in the list of one representative only |
| RemoteObjects.NotRepresentativeIsDuplicate | src/de/qtc/rmg/utils/RemoteObjectWrapper.java:194-205 | a wrapper that is not kept in the result lands in the duplicates of some representative |
| RemoteObjects.Partition | src/de/qtc/rmg/utils/RemoteObjectWrapper.java:190-208 | for a list of distinct wrappers, each wrapper is a representative or in exactly one representative's duplicates, and never both |
| RemoteObjects.RepeatedClassIffDuplicates | src/de/qtc/rmg/utils/RemoteObjectWrapper.java:190-225 | after grouping, some representative has a duplicate exactly when a class name repeats, and the result is the whole list exactly when none repeats |

## Left out

- The wire protocol is the function `server` of an `Endpoint`: connecting, JRMP, (de)serialisation and `RMIWhisperer.genericCall` itself are not modelled. `ExceptionHandler.getCause` is taken as given: the outcome carries the root cause.
- Logger output, indentation and stack-trace printing are not modelled. Each distinct message or `ExceptionHandler` call is one `Report` value.
- ExceptionHandler is not part of this model. Its `internalError` is treated as ending the operation before any call is sent: this is the `InternalError` report. `CallIndex`, `MethodHash` and `PackArgs` return `None` where the source calls it, instead of the placeholder values that follow the call in the source.
- RegistryClient.Client.EnumCodebase: on the `InternalError` path the override is cleared, as on every other path that passes the source's `finally` block.
- RegistryClient.LookupUseless: models `regMethod == "lookup"` as string equality. The source compares references, which agrees only when the caller passes the interned literal.
- RegistryClient.Client.EnumJep290Bypass: receives the An Trinh gadget as a parameter. `YsoIntegration.prepareAnTrinhGadget` and its failure path, reported as an unexpected exception with exit requested, are not part of this model. The same holds for `prepareRMIServerImpl`, which builds the stub object `bind` sends.
- A null message read by `getMessage().contains` throws NullPointerException out of the catch block. This is the `Propagated` report; what the caller then does is not modelled. Null bound names and null payloads are not modelled.
- MethodCandidate is not part of this model: signature compilation through javassist is the `Codec` whose constructors may fail.
- File I/O is the `FileStore` object:
  - `FileUtils.readLines` gives the stored line sequence;
  - `FileUtils.listFiles` with the txt/TXT filter gives the stored file list of a folder, in the stored order;
  - canonical paths are the stored names, so two listed links to one file are not modelled (see below);
  - an unreadable file is `FileNotFound`;
  - a missing built-in resource, which in the source is a null stream and a NullPointerException, is `ResourceMissing`.
- Wordlist.GetWordlistMethodsFromFolder and Wordlist.WordlistHandler.GetWordlistMethods: require `FileStore.Valid()`, that is, a folder listing names each file once. In the source, two listed entries that are links to one file share a canonical path. That file is then read twice, and under the update flag the second read parses the rewritten listing. The model does not cover this case. A listed file that cannot be read is modelled: it ends the loop with `FileNotFound` after the earlier files were read and rewritten.
- Wordlist.UpdateWordlist: the order of `HashSet` iteration is not modelled. The loop picks candidates in any order, and the contract holds for every order. Write failures are not modelled.
- JavaStrings.NormaliseCommas, JavaStrings.CollapseSpaces and JavaStrings.StripGenerics: each function is a definition of its rewrite; the contracts state the characteristic properties (what changes and what cannot remain), not the full regular-expression semantics. Nested generics such as `Map<String, List<X>>` are handled as the source's pattern handles them: the first `>` closes the group.
- Wordlist.Normalise: its contract speaks about lines without `<` only. On lines with generics the result is given by the definition alone.
- The reflective `RemoteObjectWrapper(Remote, String)` constructor is `Resolved`, which receives the class name, the endpoint and `isKnown` directly. Proxy detection, `RMGUtils.dynamicallyCreated`, and the `objID`, `remoteObject`, `remoteRef`, `csf` and `ssf` fields are not part of this model.
- `getHost` and `getPort` are the `host` and `port` of the `Endpoint` value used by `GetTarget`.
- Public fields other than `duplicates` are constants. The source never writes them after construction.
- RemoteObjects.RemoteObjectWrapper.GetByName: requires every non-null wrapper to carry a bound name. In the source, a wrapper built without a bound name makes it throw a NullPointerException.
- RemoteObjects.RemoteObjectWrapper.HandleDuplicates: requires every wrapper to carry a class name and a duplicate list, and so excludes some lists the source groups without an exception. In the source, a NullPointerException is thrown exactly when a scan of the unique list reaches a null entry or a null class name, or when a null entry is compared. A null entry throws at once unless it comes first. A first null entry throws as soon as any wrapper follows. A bound-name-only wrapper (null class name) is kept as a representative. It throws only when a later wrapper's scan reaches it, because a scan stops at the first representative of the same class. So `[a, x, b]`, with a and b of one class and x bound-name-only, returns `[a, x]` with b as a's duplicate.
- RemoteObjects.Partition and the lemmas it uses: assume a list in which no wrapper object occurs twice. An array that holds one wrapper twice groups the same object twice.
- RemoteObjects.RemoteObjectWrapper.HasDuplicatesIn, GetDuplicateBoundNames and AddDuplicate: require a duplicate list. In the source, a bound-name-only wrapper makes them throw a NullPointerException.
- The inner loop of handleDuplicates is the method `JoinRepresentative` and one outer iteration is `PlaceWrapper`. Their behaviour is that of the labelled nested loop.
