# A Dafny model of Maxine's XIR template generator, Java run scheme and allocation profiler

This project models three parts of the Maxine virtual machine and proves properties about them.

**The XIR template generator** (`MaxXirGenerator`) is the `XirGenerator` module, with `RuntimeStubs` and `Templates`. It covers:

- the one-time build of the template catalog (`makeTemplates`);
- the lazily created runtime-call stubs and the kind checks that guard their creation (`callRuntimeThroughStub`, `addCallRuntimeThroughStub`);
- the per-site choice of a template variant and its arguments (the `gen*` methods).

What the templates do when they run is stated in separate modules:

- `ArrayAccess`: array loads and stores, with the unsigned bounds check and the reference-store check.
- `Dispatch`: virtual and interface dispatch through the hub's vtable and mtable.
- `TypeChecks`: checkcast, instanceof, the materialising instanceof and the type assert.
- `TlabAllocation`: TLAB allocation. This is the array size alignment, the mark bump with its slow path, the debug allocation log and the formatting of the new cell.
- `RuntimeCalls`: the runtime's allocation entry points, including the multi-dimensional ones.

`ObjectModel` holds the heap cells, hubs and layout constants these modules share. `Kinds` holds the value kinds and the word kind of each architecture.

**The Java run scheme** (`JavaRunScheme`) is the `JavaRunScheme` module, built on `JavaStrings`. It covers:

- the splitting of a manifest Class-Path attribute into entries;
- the split of a jar option into jar path and agent arguments;
- the URL list handed to an agent handler;
- the entry-method check;
- the retry of native initialisation methods;
- the cached main class name.

**The allocation profiler** (`AllocationProfiler`) is the `AllocationProfiling` module. It covers:

- the record buffers and the survivor filtering after a collection;
- the double-buffer discipline;
- Java int counters that wrap around;
- the warm-up predicates;
- the copy of a type name into the character buffer;
- the re-entrant profiler lock.

Code that changes state in place is modelled with Dafny classes:

- the generator's stub registry and catalog;
- the TLAB;
- the runtime heap;
- the run scheme's cached fields;
- the profiler and its buffers.

Each of their methods is proved against a specification function of the old state. The template construction and the run-time behaviour of templates are functions. Loops in the source are methods with loop invariants. Examples are the class-path split, the URL loop, the survivor copy, the character copy, the native-initialisation loop and the multi-dimensional allocation loops.

## Model

| member | source | states |
|---|---|---|
| RuntimeStubs.FirstKindMismatch | com.oracle.max.vm.ext.maxri/src/com/oracle/max/vm/ext/maxri/MaxXirGenerator.java:1920-1925 | finds the first argument whose kind differs from the parameter kind; none exactly when all kinds agree, and every earlier argument agrees |
| RuntimeStubs.CheckCall | com.oracle.max.vm.ext.maxri/src/com/oracle/max/vm/ext/maxri/MaxXirGenerator.java:1908-1925 | the checks made before a stub is created (result operand against the return kind, then the argument count, then each argument kind) all pass exactly when the call matches the signature; a reported kind mismatch names an argument that really differs |
| RuntimeStubs.StubFor | com.oracle.max.vm.ext.maxri/src/com/oracle/max/vm/ext/maxri/MaxXirGenerator.java:1916-1927 | the stub names the entry point, takes its parameter kinds, and has a result operand exactly when the method is not void |
| RuntimeStubs.RuntimeSignature | com.oracle.max.vm.ext.maxri/src/com/oracle/max/vm/ext/maxri/MaxXirGenerator.java:1993-2283 | every runtime entry takes at most four parameters, each an object, an int or a machine word |
| RuntimeStubs.StubAgreesWithCall | com.oracle.max.vm.ext.maxri/src/com/oracle/max/vm/ext/maxri/MaxXirGenerator.java:1908-1927 | a stub created for a call that passed the checks agrees with that call: same result kind, same argument count and kinds |
| XirGenerator.CallThroughStub | com.oracle.max.vm.ext.maxri/src/com/oracle/max/vm/ext/maxri/MaxXirGenerator.java:1881-1940 | a cached stub is reused with the registry untouched; otherwise the stub is created exactly when the call matches the entry point, and the registry then maps the entry to it and appends it to the stub list; a failed check leaves the registry as it was |
| XirGenerator.CallThroughStubKeepsRegistryValid | com.oracle.max.vm.ext.maxri/src/com/oracle/max/vm/ext/maxri/MaxXirGenerator.java:1881-1940 | every registered stub stays the one for its entry and its signature, the registry only grows, and a returned stub is the one now registered |
| XirGenerator.CallThroughStubSucceeds | com.oracle.max.vm.ext.maxri/src/com/oracle/max/vm/ext/maxri/MaxXirGenerator.java:1881-1892 | a call that matches its entry point, or whose entry already has a stub, always yields a stub |
| XirGenerator.RegistrationStep | com.oracle.max.vm.ext.maxri/src/com/oracle/max/vm/ext/maxri/MaxXirGenerator.java:1881-1940 | one successful registration keeps the registry valid, extends it, binds the entry and leaves the stub list non-empty |
| XirGenerator.MatchingCallsAreRegistrable | com.oracle.max.vm.ext.maxri/src/com/oracle/max/vm/ext/maxri/MaxXirGenerator.java:1881-1892 | calls that all match their entry points can be registered in any registry |
| XirGenerator.ExtendsKeepsRegistrable | com.oracle.max.vm.ext.maxri/src/com/oracle/max/vm/ext/maxri/MaxXirGenerator.java:1881-1892 | calls that could be registered still can after the registry grows |
| XirGenerator.ExtendsKeepsBound | com.oracle.max.vm.ext.maxri/src/com/oracle/max/vm/ext/maxri/MaxXirGenerator.java:1881-1892 | entries that have a stub keep it when the registry grows (a stub is never redefined) |
| XirGenerator.MaxXirGenerator.CallRuntimeThroughStub | com.oracle.max.vm.ext.maxri/src/com/oracle/max/vm/ext/maxri/MaxXirGenerator.java:1881-1892 | the generator's registry after the call is exactly what CallThroughStub describes, and the catalog is untouched |
| XirGenerator.MaxXirGenerator.AddCallRuntimeThroughStub | com.oracle.max.vm.ext.maxri/src/com/oracle/max/vm/ext/maxri/MaxXirGenerator.java:1898-1940 | for an entry with no stub yet: the new registry and result are exactly CallThroughStub's |
| XirGenerator.MaxXirGenerator.RegisterCalls | com.oracle.max.vm.ext.maxri/src/com/oracle/max/vm/ext/maxri/MaxXirGenerator.java:1881-1892 | requesting a template's calls in order keeps the registry valid, only extends it, and leaves every call's entry bound to a stub |
| XirGenerator.MaxXirGenerator.RegisterPair | com.oracle.max.vm.ext.maxri/src/com/oracle/max/vm/ext/maxri/MaxXirGenerator.java:1881-1892 | both templates of a pair get every call bound, with the registry kept valid and only extended |
| XirGenerator.MaxXirGenerator.RegisterTemplate | com.oracle.max.vm.ext.maxri/src/com/oracle/max/vm/ext/maxri/MaxXirGenerator.java:1881-1892 | a template whose calls match gets every call bound, registry kept valid and extended |
| XirGenerator.MaxXirGenerator.RegisterMatchingPair | com.oracle.max.vm.ext.maxri/src/com/oracle/max/vm/ext/maxri/MaxXirGenerator.java:1881-1892 | as RegisterPair, for a pair whose calls all match |
| XirGenerator.MaxXirGenerator.constructor | com.oracle.max.vm.ext.maxri/src/com/oracle/max/vm/ext/maxri/MaxXirGenerator.java:207-216 | a generator starts with no stubs and no catalog, with its registry valid |
| XirGenerator.MultiNewArrayTable | com.oracle.max.vm.ext.maxri/src/com/oracle/max/vm/ext/maxri/MaxXirGenerator.java:289-293 | the table has MAX_MULTIANEWARRAY_RANK + 1 slots, slot 0 empty and slot r holding the templates for rank r |
| XirGenerator.PerKindStep | com.oracle.max.vm.ext.maxri/src/com/oracle/max/vm/ext/maxri/MaxXirGenerator.java:259-276 | building the templates of one more kind extends the per-kind map built so far by exactly that kind's templates |
| XirGenerator.PerKindSkip | com.oracle.max.vm.ext.maxri/src/com/oracle/max/vm/ext/maxri/MaxXirGenerator.java:259-263 | a kind without templates leaves the map built so far as it is |
| XirGenerator.PerKindComplete | com.oracle.max.vm.ext.maxri/src/com/oracle/max/vm/ext/maxri/MaxXirGenerator.java:259-276 | after every kind, the map holds exactly the kinds that have templates, each with its templates |
| XirGenerator.ExpectedCatalogShape | com.oracle.max.vm.ext.maxri/src/com/oracle/max/vm/ext/maxri/MaxXirGenerator.java:223-325 | the expected catalog keeps the registered array hubs, has per-kind templates for exactly the kinds that have them, a class resolver per representation, one multi-array template per rank up to the maximum, the two cheap array-store templates, and the three materialising instanceof pairs |
| XirGenerator.MaxXirGenerator.BuildKindTemplates | com.oracle.max.vm.ext.maxri/src/com/oracle/max/vm/ext/maxri/MaxXirGenerator.java:264-275 | the field, static-field, array and allocation templates built for one kind are those the catalog specifies for it, with the registry kept valid |
| XirGenerator.MaxXirGenerator.BuildKindArrayTemplates | com.oracle.max.vm.ext.maxri/src/com/oracle/max/vm/ext/maxri/MaxXirGenerator.java:269-274 | the array load/store templates with and without bounds check (store and write-barrier checks only for Object) and the allocation templates of a kind |
| XirGenerator.MaxXirGenerator.BuildPerKindTemplates | com.oracle.max.vm.ext.maxri/src/com/oracle/max/vm/ext/maxri/MaxXirGenerator.java:259-276 | the per-kind map is exactly the templates of every kind that has templates |
| XirGenerator.MaxXirGenerator.BuildMultiNewArrayTable | com.oracle.max.vm.ext.maxri/src/com/oracle/max/vm/ext/maxri/MaxXirGenerator.java:289-293 | the loop builds the table MultiNewArrayTable describes |
| XirGenerator.MaxXirGenerator.BuildResolveClassTable | com.oracle.max.vm.ext.maxri/src/com/oracle/max/vm/ext/maxri/MaxXirGenerator.java:295-298 | one class-resolution template per representation |
| XirGenerator.MaxXirGenerator.BuildInvokeTemplates | com.oracle.max.vm.ext.maxri/src/com/oracle/max/vm/ext/maxri/MaxXirGenerator.java:278-287 | the invoke and linkTo templates are those the catalog specifies |
| XirGenerator.MaxXirGenerator.RegisterNewInstanceTemplates | com.oracle.max.vm.ext.maxri/src/com/oracle/max/vm/ext/maxri/MaxXirGenerator.java:305-306 | registering the three instance-allocation templates keeps the registry valid |
| XirGenerator.MaxXirGenerator.BuildMiscTemplates | com.oracle.max.vm.ext.maxri/src/com/oracle/max/vm/ext/maxri/MaxXirGenerator.java:300-306 | the safepoint, arraylength, monitor and instance-allocation templates are those the catalog specifies |
| XirGenerator.MaxXirGenerator.BuildTypeCheckTemplates | com.oracle.max.vm.ext.maxri/src/com/oracle/max/vm/ext/maxri/MaxXirGenerator.java:308-320 | the checkcast, instanceof, materialising, type-assert and exception-object templates are those the catalog specifies, and the exception loader has a stub |
| XirGenerator.MaxXirGenerator.BuildMaterializeTemplates | com.oracle.max.vm.ext.maxri/src/com/oracle/max/vm/ext/maxri/MaxXirGenerator.java:314-316 | the three materialising instanceof pairs, built once the instanceof stub exists, with the registry kept valid and only extended |
| XirGenerator.MaxXirGenerator.BuildLeadingTemplates | com.oracle.max.vm.ext.maxri/src/com/oracle/max/vm/ext/maxri/MaxXirGenerator.java:231-276 | the epilogue, the two unchecked object-store templates and the per-kind map are those the catalog specifies |
| XirGenerator.MaxXirGenerator.BuildCatalog | com.oracle.max.vm.ext.maxri/src/com/oracle/max/vm/ext/maxri/MaxXirGenerator.java:228-324 | the catalog built is exactly the expected catalog for the configuration and array hubs, the registry stays valid and holds at least one stub |
| XirGenerator.MaxXirGenerator.MakeTemplates | com.oracle.max.vm.ext.maxri/src/com/oracle/max/vm/ext/maxri/MaxXirGenerator.java:223-325 | after the call the catalog is built and the stub list (non-empty) is returned; a second call returns the same stubs and changes nothing |
| XirGenerator.MaxXirGenerator.PerKindIsBuilt | com.oracle.max.vm.ext.maxri/src/com/oracle/max/vm/ext/maxri/MaxXirGenerator.java:259-276 | once the catalog is built, every kind with templates has its templates in the per-kind map |
| XirGenerator.CallsMatchAppend | com.oracle.max.vm.ext.maxri/src/com/oracle/max/vm/ext/maxri/MaxXirGenerator.java:1881-1892 | two call lists that match concatenate into one that matches |
| XirGenerator.RepresentationListed | com.oracle.max.vm.ext.maxri/src/com/oracle/max/vm/ext/maxri/MaxXirGenerator.java:295-298 | the resolution table covers every representation |
| Templates.MultiArrayEntry | com.oracle.max.vm.ext.maxri/src/com/oracle/max/vm/ext/maxri/MaxXirGenerator.java:1253-1266 | a resolved multi-dimensional allocation has an entry point exactly for ranks 1 to 3 |
| Templates.MultiArrayEntryNamed | com.oracle.max.vm.ext.maxri/src/com/oracle/max/vm/ext/maxri/MaxXirGenerator.java:1264 | that entry point is the method named allocateMultiArray followed by the rank |
| Templates.EpilogueRequests | com.oracle.max.vm.ext.maxri/src/com/oracle/max/vm/ext/maxri/MaxXirGenerator.java:373-378 | the epilogue template calls nothing in the runtime |
| Templates.ArrayStoreRequests | com.oracle.max.vm.ext.maxri/src/com/oracle/max/vm/ext/maxri/MaxXirGenerator.java:805-855 | the store template calls the index-out-of-bounds thrower first exactly when it checks bounds, the array-store checker last exactly when it checks stores, and nothing else |
| Templates.ArrayLoadRequests | com.oracle.max.vm.ext.maxri/src/com/oracle/max/vm/ext/maxri/MaxXirGenerator.java:856-877 | the load template calls only the index-out-of-bounds thrower, and only when it checks bounds |
| Templates.PutFieldTemplateRequests | com.oracle.max.vm.ext.maxri/src/com/oracle/max/vm/ext/maxri/MaxXirGenerator.java:1474-1513 | a resolved field store calls nothing; an unresolved one makes one int-returning call to the put-static or put-field resolver |
| Templates.PutFieldTemplatesRequests | com.oracle.max.vm.ext.maxri/src/com/oracle/max/vm/ext/maxri/MaxXirGenerator.java:1469-1473 | the pair holds the resolved store without calls and the unresolved store that first calls its resolver |
| Templates.GetFieldTemplateRequests | com.oracle.max.vm.ext.maxri/src/com/oracle/max/vm/ext/maxri/MaxXirGenerator.java:1519-1545 | a resolved field load calls nothing; an unresolved one makes one int-returning call to the get-static or get-field resolver |
| Templates.GetFieldTemplatesRequests | com.oracle.max.vm.ext.maxri/src/com/oracle/max/vm/ext/maxri/MaxXirGenerator.java:1514-1518 | the pair holds the resolved load without calls and the unresolved load that first calls its resolver |
| Templates.NewArrayRequests | com.oracle.max.vm.ext.maxri/src/com/oracle/max/vm/ext/maxri/MaxXirGenerator.java:1217-1252 | both templates end in the object-array or primitive-array allocator by kind; only the unresolved Object template resolves the array class first; other kinds share one template |
| Templates.TlabArrayCallsContents | com.oracle.max.vm.ext.maxri/src/com/oracle/max/vm/ext/maxri/MaxXirGenerator.java:1086-1187 | an array TLAB template calls the slow-path allocator and the negative-size thrower, the log flusher exactly in debug, and the out-of-line or the inline array profiler call by the stubs switch |
| Templates.TLABNewArrayRequests | com.oracle.max.vm.ext.maxri/src/com/oracle/max/vm/ext/maxri/MaxXirGenerator.java:1189-1216 | the resolved template follows the stubs switch; the unresolved Object template is always the out-of-line one, resolves the array class first, then makes the out-of-line calls; other kinds share one template |
| Templates.InvokeVirtualRequests | com.oracle.max.vm.ext.maxri/src/com/oracle/max/vm/ext/maxri/MaxXirGenerator.java:990-1020 | a resolved virtual call calls nothing; the unresolved one asks the virtual-method resolver for an int vtable offset |
| Templates.InvokeInterfaceRequests | com.oracle.max.vm.ext.maxri/src/com/oracle/max/vm/ext/maxri/MaxXirGenerator.java:937-989 | a resolved interface call calls nothing; the unresolved one resolves the method, then the interface id, both as ints |
| Templates.InvokeSpecialRequests | com.oracle.max.vm.ext.maxri/src/com/oracle/max/vm/ext/maxri/MaxXirGenerator.java:907-936 | both resolved special calls call nothing and differ only in the null check; the unresolved one asks for a word-sized entry address |
| Templates.InvokeStaticRequests | com.oracle.max.vm.ext.maxri/src/com/oracle/max/vm/ext/maxri/MaxXirGenerator.java:887-906 | a resolved static call calls nothing; the unresolved one asks the static resolver for a word-sized entry address |
| Templates.InvokeHandleRequests | com.oracle.max.vm.ext.maxri/src/com/oracle/max/vm/ext/maxri/MaxXirGenerator.java:878-886 | the handle invocation makes one word-returning call to the invoke-handle entry |
| Templates.LinkToVirtualRequests | com.oracle.max.vm.ext.maxri/src/com/oracle/max/vm/ext/maxri/MaxXirGenerator.java:1049-1057 | one word-returning call to the link-to-virtual entry with two arguments |
| Templates.LinkToInterfaceRequests | com.oracle.max.vm.ext.maxri/src/com/oracle/max/vm/ext/maxri/MaxXirGenerator.java:1030-1039 | one word-returning call to the link-to-interface entry with two arguments |
| Templates.LinkToSpecialRequests | com.oracle.max.vm.ext.maxri/src/com/oracle/max/vm/ext/maxri/MaxXirGenerator.java:1040-1048 | one word-returning call to the link-to-special entry with one argument |
| Templates.LinkToStaticRequests | com.oracle.max.vm.ext.maxri/src/com/oracle/max/vm/ext/maxri/MaxXirGenerator.java:1021-1029 | one word-returning call to the link-to-static entry with one argument |
| Templates.NewMultiArrayRequests | com.oracle.max.vm.ext.maxri/src/com/oracle/max/vm/ext/maxri/MaxXirGenerator.java:1253-1287 | the unresolved template builds the dimensions array, then calls the general allocator; below the small-rank limit the resolved one calls the per-rank allocator with rank + 1 arguments, otherwise it is the unresolved one |
| Templates.ResolveClassRequests | com.oracle.max.vm.ext.maxri/src/com/oracle/max/vm/ext/maxri/MaxXirGenerator.java:771-787 | one object-returning call to the resolver of the requested representation |
| Templates.SafepointRequests | com.oracle.max.vm.ext.maxri/src/com/oracle/max/vm/ext/maxri/MaxXirGenerator.java:788-796 | the safepoint template calls nothing |
| Templates.ArrayLengthRequests | com.oracle.max.vm.ext.maxri/src/com/oracle/max/vm/ext/maxri/MaxXirGenerator.java:797-804 | the array-length template calls nothing |
| Templates.MonitorEnterRequests | com.oracle.max.vm.ext.maxri/src/com/oracle/max/vm/ext/maxri/MaxXirGenerator.java:1554-1561 | one void call to the monitor-enter entry with the object |
| Templates.MonitorExitRequests | com.oracle.max.vm.ext.maxri/src/com/oracle/max/vm/ext/maxri/MaxXirGenerator.java:1546-1553 | one void call to the monitor-exit entry with the object |
| Templates.NewInstanceRequests | com.oracle.max.vm.ext.maxri/src/com/oracle/max/vm/ext/maxri/MaxXirGenerator.java:1434-1466 | the resolved tuple and hybrid templates call their allocators; the unresolved one resolves the class first, then allocates a tuple |
| Templates.TlabTupleCallsContents | com.oracle.max.vm.ext.maxri/src/com/oracle/max/vm/ext/maxri/MaxXirGenerator.java:1288-1409 | a tuple TLAB template calls the slow-path allocator and the profiler, the log flusher exactly in debug, and never the negative-size thrower |
| Templates.TLABNewInstanceRequests | com.oracle.max.vm.ext.maxri/src/com/oracle/max/vm/ext/maxri/MaxXirGenerator.java:1410-1431 | the three templates follow the stubs switch and share the tuple calls; the unresolved one resolves the class first |
| Templates.UnresolvedCheckcastRequests | com.oracle.max.vm.ext.maxri/src/com/oracle/max/vm/ext/maxri/MaxXirGenerator.java:1632-1646 | one void call to the unresolved-checkcast entry |
| Templates.CheckcastForLeafRequests | com.oracle.max.vm.ext.maxri/src/com/oracle/max/vm/ext/maxri/MaxXirGenerator.java:1562-1591 | the resolved leaf cast calls only the class-cast thrower; the unresolved one is the shared unresolved cast |
| Templates.CheckcastForNonLeafRequests | com.oracle.max.vm.ext.maxri/src/com/oracle/max/vm/ext/maxri/MaxXirGenerator.java:1592-1631 | the resolved non-leaf cast calls only the class-cast thrower; the unresolved one is the shared unresolved cast |
| Templates.UnresolvedInstanceOfRequests | com.oracle.max.vm.ext.maxri/src/com/oracle/max/vm/ext/maxri/MaxXirGenerator.java:1825-1847 | one boolean-returning call to the unresolved-instanceof entry |
| Templates.InstanceofForLeafRequests | com.oracle.max.vm.ext.maxri/src/com/oracle/max/vm/ext/maxri/MaxXirGenerator.java:1647-1677 | the resolved leaf test calls nothing; the unresolved one is the shared unresolved test |
| Templates.InstanceofForNonLeafRequests | com.oracle.max.vm.ext.maxri/src/com/oracle/max/vm/ext/maxri/MaxXirGenerator.java:1782-1824 | the resolved non-leaf test calls nothing; the unresolved one is the shared unresolved test |
| Templates.UnresolvedMaterializeInstanceOfRequests | com.oracle.max.vm.ext.maxri/src/com/oracle/max/vm/ext/maxri/MaxXirGenerator.java:1732-1760 | one int-returning call to the unresolved-instanceof entry |
| Templates.MaterializeInstanceOfRequests | com.oracle.max.vm.ext.maxri/src/com/oracle/max/vm/ext/maxri/MaxXirGenerator.java:1678-1731 | the resolved materialising test calls nothing; the unresolved one is the shared unresolved materialising test |
| Templates.TypeAssertRequests | com.oracle.max.vm.ext.maxri/src/com/oracle/max/vm/ext/maxri/MaxXirGenerator.java:1761-1781 | the type assertion requests no runtime stub; its slow path deoptimises directly (`TypeChecks.TypeAssert`'s `Deoptimize`) |
| Templates.ExceptionObjectRequests | com.oracle.max.vm.ext.maxri/src/com/oracle/max/vm/ext/maxri/MaxXirGenerator.java:1848-1859 | one argument-less, object-returning call to the exception loader |
| Templates.ArrayAccessCallsMatch | com.oracle.max.vm.ext.maxri/src/com/oracle/max/vm/ext/maxri/MaxXirGenerator.java:805-877 | every runtime call the array load and store templates request names an entry point and agrees with its signature, so creating its stub cannot fail |
| Templates.FieldCallsMatch | com.oracle.max.vm.ext.maxri/src/com/oracle/max/vm/ext/maxri/MaxXirGenerator.java:1469-1545 | every runtime call the put/get field and static templates, resolved and unresolved request names an entry point and agrees with its signature, so creating its stub cannot fail |
| Templates.NewArrayCallsMatch | com.oracle.max.vm.ext.maxri/src/com/oracle/max/vm/ext/maxri/MaxXirGenerator.java:1217-1252 | every runtime call the array allocation templates request names an entry point and agrees with its signature, so creating its stub cannot fail |
| Templates.TlabArrayCallsMatch | com.oracle.max.vm.ext.maxri/src/com/oracle/max/vm/ext/maxri/MaxXirGenerator.java:1086-1197 | every runtime call the TLAB array allocation calls (slow path, log flush, negative size) request names an entry point and agrees with its signature, so creating its stub cannot fail |
| Templates.TlabNewArrayCallsMatch | com.oracle.max.vm.ext.maxri/src/com/oracle/max/vm/ext/maxri/MaxXirGenerator.java:1198-1216 | every runtime call the TLAB array allocation templates request names an entry point and agrees with its signature, so creating its stub cannot fail |
| Templates.TlabTupleCallsMatch | com.oracle.max.vm.ext.maxri/src/com/oracle/max/vm/ext/maxri/MaxXirGenerator.java:1288-1409 | every runtime call the TLAB instance allocation calls request names an entry point and agrees with its signature, so creating its stub cannot fail |
| Templates.VirtualCallsMatch | com.oracle.max.vm.ext.maxri/src/com/oracle/max/vm/ext/maxri/MaxXirGenerator.java:990-1020 | every runtime call the invokevirtual templates request names an entry point and agrees with its signature, so creating its stub cannot fail |
| Templates.InterfaceCallsMatch | com.oracle.max.vm.ext.maxri/src/com/oracle/max/vm/ext/maxri/MaxXirGenerator.java:937-989 | every runtime call the invokeinterface templates request names an entry point and agrees with its signature, so creating its stub cannot fail |
| Templates.DirectCallsMatch | com.oracle.max.vm.ext.maxri/src/com/oracle/max/vm/ext/maxri/MaxXirGenerator.java:887-936 | every runtime call the unresolved invokespecial and invokestatic templates request names an entry point and agrees with its signature, so creating its stub cannot fail |
| Templates.HandleCallsMatch | com.oracle.max.vm.ext.maxri/src/com/oracle/max/vm/ext/maxri/MaxXirGenerator.java:878-886 | every runtime call the invokehandle and linkToVirtual templates request names an entry point and agrees with its signature, so creating its stub cannot fail |
| Templates.LinkCallsMatch | com.oracle.max.vm.ext.maxri/src/com/oracle/max/vm/ext/maxri/MaxXirGenerator.java:1021-1057 | every runtime call the linkToInterface, linkToSpecial and linkToStatic templates request names an entry point and agrees with its signature, so creating its stub cannot fail |
| Templates.NewMultiArrayCallsMatch | com.oracle.max.vm.ext.maxri/src/com/oracle/max/vm/ext/maxri/MaxXirGenerator.java:1253-1287 | every runtime call the unresolved multi-dimensional allocation templates of ranks 1 to 6 request names an entry point and agrees with its signature, so creating its stub cannot fail |
| Templates.NewMultiArrayResolvedCallsMatch | com.oracle.max.vm.ext.maxri/src/com/oracle/max/vm/ext/maxri/MaxXirGenerator.java:1253-1287 | every runtime call the resolved multi-dimensional allocation templates of ranks 1 to 6 request names an entry point and agrees with its signature, so creating its stub cannot fail |
| Templates.ResolveClassCallsMatch | com.oracle.max.vm.ext.maxri/src/com/oracle/max/vm/ext/maxri/MaxXirGenerator.java:771-787 | every runtime call the class-resolution templates request names an entry point and agrees with its signature, so creating its stub cannot fail |
| Templates.MonitorCallsMatch | com.oracle.max.vm.ext.maxri/src/com/oracle/max/vm/ext/maxri/MaxXirGenerator.java:1546-1561 | every runtime call the monitor enter and exit templates request names an entry point and agrees with its signature, so creating its stub cannot fail |
| Templates.ExceptionObjectCallsMatch | com.oracle.max.vm.ext.maxri/src/com/oracle/max/vm/ext/maxri/MaxXirGenerator.java:1848-1880 | every runtime call the exception-object template request names an entry point and agrees with its signature, so creating its stub cannot fail |
| Templates.NewInstanceCallsMatch | com.oracle.max.vm.ext.maxri/src/com/oracle/max/vm/ext/maxri/MaxXirGenerator.java:1434-1468 | every runtime call the instance allocation templates request names an entry point and agrees with its signature, so creating its stub cannot fail |
| Templates.TlabNewInstanceCallsMatch | com.oracle.max.vm.ext.maxri/src/com/oracle/max/vm/ext/maxri/MaxXirGenerator.java:1410-1433 | every runtime call the TLAB instance allocation templates request names an entry point and agrees with its signature, so creating its stub cannot fail |
| Templates.CheckcastCallsMatch | com.oracle.max.vm.ext.maxri/src/com/oracle/max/vm/ext/maxri/MaxXirGenerator.java:1562-1631 | every runtime call the checkcast templates request names an entry point and agrees with its signature, so creating its stub cannot fail |
| Templates.InstanceofCallsMatch | com.oracle.max.vm.ext.maxri/src/com/oracle/max/vm/ext/maxri/MaxXirGenerator.java:1782-1847 | every runtime call the unresolved instanceof template request names an entry point and agrees with its signature, so creating its stub cannot fail |
| Templates.TlabCallsMatch | com.oracle.max.vm.ext.maxri/src/com/oracle/max/vm/ext/maxri/MaxXirGenerator.java:1086-1197 | the slow-path allocation, log flush and negative-size calls of the TLAB templates agree with their entry points |
| Templates.ProfilerCallsMatch | com.oracle.max.vm.ext.maxri/src/com/oracle/max/vm/ext/maxri/MaxXirGenerator.java:1326-1352 | the allocation profiler calls of the TLAB templates agree with their entry points |
| Templates.MaterializeUnresolvedCallMismatch | com.oracle.max.vm.ext.maxri/src/com/oracle/max/vm/ext/maxri/MaxXirGenerator.java:1732-1760 | the unresolved materialising instanceof requests unresolvedInstanceOf with an int result, which fails the return-kind check; it works only because the stub is already cached |
| XirGenerator.TypeGuard | com.oracle.max.vm.ext.maxri/src/com/oracle/max/vm/ext/maxri/MaxXirGenerator.java:731-764 | a resolved type is passed as itself, any other as a resolution guard |
| XirGenerator.MethodIsAllocationProfilerEntryOrExitPoint | com.oracle.max.vm.ext.maxri/src/com/oracle/max/vm/ext/maxri/MaxXirGenerator.java:396-399 | the method name up to its first parenthesis equals the given point; a name with no parenthesis throws |
| XirGenerator.MaxXirGenerator.GenEpilogueAsWritten | com.oracle.max.vm.ext.maxri/src/com/oracle/max/vm/ext/maxri/MaxXirGenerator.java:381-394 | no snippet for a template method; otherwise always the prebuilt epilogue, which writes no profiler flag; the exit-point test can throw only on a running VM |
| XirGenerator.MaxXirGenerator.EpilogueAsWrittenIgnoresExitPoint | com.oracle.max.vm.ext.maxri/src/com/oracle/max/vm/ext/maxri/MaxXirGenerator.java:381-394 | as written, the exit point's epilogue is the same snippet as every other method's |
| XirGenerator.MaxXirGenerator.ExitPointEpilogueKeepsProfilerFlag | com.oracle.max.vm.ext.maxri/src/com/oracle/max/vm/ext/maxri/MaxXirGenerator.java:381-394 | for a method named by the exit point on a running VM, the written epilogue leaves the profiler flag at 1 and the corrected one clears it |
| XirGenerator.MaxXirGenerator.GenEpilogue | com.oracle.max.vm.ext.maxri/src/com/oracle/max/vm/ext/maxri/MaxXirGenerator.java:381-394 | corrected: no snippet for a template method; otherwise an epilogue without runtime calls that clears the profiler flag exactly when the VM runs and the method is the profiler's exit point, and leaves it otherwise; the name check can throw only then |
| XirGenerator.MaxXirGenerator.GenSafepointPoll | com.oracle.max.vm.ext.maxri/src/com/oracle/max/vm/ext/maxri/MaxXirGenerator.java:402-405 | the safepoint template with no arguments |
| XirGenerator.MaxXirGenerator.GenResolveClass | com.oracle.max.vm.ext.maxri/src/com/oracle/max/vm/ext/maxri/MaxXirGenerator.java:407-410 | the resolution template for the representation, given the type's guard, calling the matching resolver |
| XirGenerator.MaxXirGenerator.GenInvokeHandle | com.oracle.max.vm.ext.maxri/src/com/oracle/max/vm/ext/maxri/MaxXirGenerator.java:412-415 | the invokehandle template with the actor |
| XirGenerator.MaxXirGenerator.GenInvokeInterface | com.oracle.max.vm.ext.maxri/src/com/oracle/max/vm/ext/maxri/MaxXirGenerator.java:417-428 | a resolved method passes its holder id and interface index, an unresolved one its guard |
| XirGenerator.MaxXirGenerator.GenInvokeVirtual | com.oracle.max.vm.ext.maxri/src/com/oracle/max/vm/ext/maxri/MaxXirGenerator.java:430-440 | a resolved method passes its vtable index as a byte offset from the hub, an unresolved one its guard |
| XirGenerator.MaxXirGenerator.GenInvokeSpecial | com.oracle.max.vm.ext.maxri/src/com/oracle/max/vm/ext/maxri/MaxXirGenerator.java:442-453 | the resolved template with a null check only when required (then the receiver is passed), an unresolved method its guard |
| XirGenerator.MaxXirGenerator.GenInvokeStatic | com.oracle.max.vm.ext.maxri/src/com/oracle/max/vm/ext/maxri/MaxXirGenerator.java:455-464 | a resolved method passes a zero word, an unresolved one its guard |
| XirGenerator.MaxXirGenerator.GenLinkToSpecial | com.oracle.max.vm.ext.maxri/src/com/oracle/max/vm/ext/maxri/MaxXirGenerator.java:466-470 | the linkToSpecial template with the member name |
| XirGenerator.MaxXirGenerator.GenLinkToInterface | com.oracle.max.vm.ext.maxri/src/com/oracle/max/vm/ext/maxri/MaxXirGenerator.java:471-475 | the linkToInterface template with member name then receiver |
| XirGenerator.MaxXirGenerator.GenLinkToVirtual | com.oracle.max.vm.ext.maxri/src/com/oracle/max/vm/ext/maxri/MaxXirGenerator.java:476-480 | the linkToVirtual template with member name then receiver |
| XirGenerator.MaxXirGenerator.GenLinkToStatic | com.oracle.max.vm.ext.maxri/src/com/oracle/max/vm/ext/maxri/MaxXirGenerator.java:481-485 | the linkToStatic template with the member name |
| XirGenerator.MaxXirGenerator.GenMonitorEnter | com.oracle.max.vm.ext.maxri/src/com/oracle/max/vm/ext/maxri/MaxXirGenerator.java:486-489 | the monitor-enter template with the receiver only |
| XirGenerator.MaxXirGenerator.GenMonitorExit | com.oracle.max.vm.ext.maxri/src/com/oracle/max/vm/ext/maxri/MaxXirGenerator.java:491-494 | the monitor-exit template with the receiver only |
| XirGenerator.MaxXirGenerator.GenGetField | com.oracle.max.vm.ext.maxri/src/com/oracle/max/vm/ext/maxri/MaxXirGenerator.java:496-507 | the field kind's instance get template, resolved with the field offset or unresolved with its guard |
| XirGenerator.MaxXirGenerator.GenPutField | com.oracle.max.vm.ext.maxri/src/com/oracle/max/vm/ext/maxri/MaxXirGenerator.java:509-519 | the field kind's instance put template (write barrier for Object), with offset or guard |
| XirGenerator.MaxXirGenerator.GenGetStatic | com.oracle.max.vm.ext.maxri/src/com/oracle/max/vm/ext/maxri/MaxXirGenerator.java:521-531 | the field kind's static get template on the static tuple, with offset or guard |
| XirGenerator.MaxXirGenerator.GenPutStatic | com.oracle.max.vm.ext.maxri/src/com/oracle/max/vm/ext/maxri/MaxXirGenerator.java:533-543 | the field kind's static put template on the static tuple, with offset or guard |
| XirGenerator.MaxXirGenerator.GenNewInstance | com.oracle.max.vm.ext.maxri/src/com/oracle/max/vm/ext/maxri/MaxXirGenerator.java:559-575 | an initialised resolved type gets the resolved (or hybrid) template and its hub (and tuple size with TLABs); any other type its guard |
| XirGenerator.MaxXirGenerator.GenNewArray | com.oracle.max.vm.ext.maxri/src/com/oracle/max/vm/ext/maxri/MaxXirGenerator.java:581-596 | the hub is the resolved array type's for Object and the registered array hub otherwise; with a hub the resolved template, without one the component guard; with TLABs the template is the out-of-line variant exactly when the out-of-line-stubs switch is on or it is the unresolved Object template |
| XirGenerator.MaxXirGenerator.GenNewMultiArrayAsWritten | com.oracle.max.vm.ext.maxri/src/com/oracle/max/vm/ext/maxri/MaxXirGenerator.java:599-610 | as written: a rank above 6 indexes past the template table before the bound check is reached |
| XirGenerator.MaxXirGenerator.GenNewMultiArray | com.oracle.max.vm.ext.maxri/src/com/oracle/max/vm/ext/maxri/MaxXirGenerator.java:599-610 | ranks 1 to 6 get a template (resolved with the hub only for a resolved type below rank 2, otherwise the guard after the lengths); larger ranks are reported unimplemented |
| XirGenerator.MaxXirGenerator.MultiArrayRankPastTable | com.oracle.max.vm.ext.maxri/src/com/oracle/max/vm/ext/maxri/MaxXirGenerator.java:599-610 | rank 7 makes the written code fail on the table index, while the corrected one reports unimplemented |
| XirGenerator.MaxXirGenerator.GenCheckCast | com.oracle.max.vm.ext.maxri/src/com/oracle/max/vm/ext/maxri/MaxXirGenerator.java:613-633 | the leaf template for a leaf type, the class-id template for other resolved types, the unresolved template with the guard otherwise |
| XirGenerator.MaxXirGenerator.GenInstanceOf | com.oracle.max.vm.ext.maxri/src/com/oracle/max/vm/ext/maxri/MaxXirGenerator.java:635-654 | the same three-way choice for instanceof |
| XirGenerator.MaxXirGenerator.GenMaterializeInstanceOf | com.oracle.max.vm.ext.maxri/src/com/oracle/max/vm/ext/maxri/MaxXirGenerator.java:656-679 | the same choice for materialising instanceof; only the leaf template uses the non-null flag |
| XirGenerator.MaxXirGenerator.GenTypeCheck | com.oracle.max.vm.ext.maxri/src/com/oracle/max/vm/ext/maxri/MaxXirGenerator.java:681-686 | the type-assert template with object and hub |
| XirGenerator.MaxXirGenerator.GenArrayLoad | com.oracle.max.vm.ext.maxri/src/com/oracle/max/vm/ext/maxri/MaxXirGenerator.java:688-697 | the element kind's load template with or without bounds check |
| XirGenerator.MaxXirGenerator.GenArrayStore | com.oracle.max.vm.ext.maxri/src/com/oracle/max/vm/ext/maxri/MaxXirGenerator.java:699-720 | the element kind's store template; store check and write barrier only for Object |
| XirGenerator.MaxXirGenerator.GenArrayLength | com.oracle.max.vm.ext.maxri/src/com/oracle/max/vm/ext/maxri/MaxXirGenerator.java:722-725 | the arraylength template with the array |
| XirGenerator.MaxXirGenerator.GenExceptionObject | com.oracle.max.vm.ext.maxri/src/com/oracle/max/vm/ext/maxri/MaxXirGenerator.java:727-730 | the exception-object template with no arguments |
| XirGenerator.MaxXirGenerator.GenCheckCastIsSubtypeTest | com.oracle.max.vm.ext.maxri/src/com/oracle/max/vm/ext/maxri/MaxXirGenerator.java:613-633 | for a resolved type, the checkcast snippet chosen passes exactly the objects assignable to the type |
| XirGenerator.MaxXirGenerator.GenInstanceOfIsSubtypeTest | com.oracle.max.vm.ext.maxri/src/com/oracle/max/vm/ext/maxri/MaxXirGenerator.java:635-654 | for a resolved type, the instanceof snippet chosen answers true exactly for non-null objects assignable to the type |
| XirGenerator.MaxXirGenerator.GenMaterializeInstanceOfIsSubtypeTest | com.oracle.max.vm.ext.maxri/src/com/oracle/max/vm/ext/maxri/MaxXirGenerator.java:656-679 | for a resolved type, the materialising snippet yields the true value exactly for non-null assignable objects |
| XirGenerator.MaxXirGenerator.GenInvokeVirtualReachesVTableEntry | com.oracle.max.vm.ext.maxri/src/com/oracle/max/vm/ext/maxri/MaxXirGenerator.java:430-440 | the offset a resolved invokevirtual passes reaches the receiver hub's vtable entry for the method |
| ObjectModel.JavaRem | com.oracle.max.vm.ext.maxri/src/com/oracle/max/vm/ext/maxri/MaxXirGenerator.java:951 | Java's remainder: bounded by the divisor, sign of the dividend |
| ObjectModel.Unsigned32 | com.oracle.max.vm.ext.maxri/src/com/oracle/max/vm/ext/maxri/MaxXirGenerator.java:821 | a 32-bit int read as unsigned: negative values become at least 2^31 |
| ObjectModel.UnsignedBoundsCheck | com.oracle.max.vm.ext.maxri/src/com/oracle/max/vm/ext/maxri/MaxXirGenerator.java:821 | one unsigned comparison against a non-negative length rejects exactly the indices outside [0, length) |
| ObjectModel.MTableSlot | com.oracle.max.vm.ext.maxri/src/com/oracle/max/vm/ext/maxri/MaxXirGenerator.java:951-953 | the slot an id hashes to lies in the hub's mtable |
| ObjectModel.MTableBase | com.oracle.max.vm.ext.maxri/src/com/oracle/max/vm/ext/maxri/MaxXirGenerator.java:1614-1617 | the index read from the slot is a valid word index of the hub |
| ObjectModel.ProbeIsPerSlot | com.oracle.max.vm.ext.maxri/src/com/oracle/max/vm/ext/maxri/MaxXirGenerator.java:1612-1619 | ids congruent modulo the mtable length probe the same slot and read the same word, so at most one of them passes the id comparison |
| Dispatch.HubWordAt | com.oracle.max.vm.ext.maxri/src/com/oracle/max/vm/ext/maxri/MaxXirGenerator.java:990-1020 | a byte offset addresses a hub word exactly when it is past the first element, word-aligned and in range |
| Dispatch.VTableOffset | com.oracle.max.vm.ext.maxri/src/com/oracle/max/vm/ext/maxri/MaxXirGenerator.java:430-439 | the offset lies past the first vtable element by exactly the vtable index in words |
| Dispatch.ResolverVTableOffset | com.oracle.max.vm.ext.maxri/src/com/oracle/max/vm/ext/maxri/MaxXirGenerator.java:2048-2050 | the resolver's offset lies past the hybrid header by exactly the vtable index in words |
| Dispatch.InvokeVirtual | com.oracle.max.vm.ext.maxri/src/com/oracle/max/vm/ext/maxri/MaxXirGenerator.java:990-1020 | the call fails exactly for a null receiver, with a null-pointer exception |
| Dispatch.ResolvedVirtualDispatch | com.oracle.max.vm.ext.maxri/src/com/oracle/max/vm/ext/maxri/MaxXirGenerator.java:430-440 | the offset a resolved site passes loads vtable entry vTableIndex of the receiver's hub |
| Dispatch.InvokeVirtualUnresolved | com.oracle.max.vm.ext.maxri/src/com/oracle/max/vm/ext/maxri/MaxXirGenerator.java:990-1020 | a resolution error comes before the null check; otherwise the resolved template with the resolved offset |
| Dispatch.UnresolvedVirtualDispatch | com.oracle.max.vm.ext.maxri/src/com/oracle/max/vm/ext/maxri/MaxXirGenerator.java:2048-2050 | the resolver's offset equals the resolved site's exactly when the hybrid header size is the first-element offset |
| Dispatch.InvokeInterface | com.oracle.max.vm.ext.maxri/src/com/oracle/max/vm/ext/maxri/MaxXirGenerator.java:937-989 | fails exactly for a null receiver; otherwise the word at (int at id mod length + start) + method index |
| Dispatch.InvokeInterfaceUnresolved | com.oracle.max.vm.ext.maxri/src/com/oracle/max/vm/ext/maxri/MaxXirGenerator.java:937-989 | the method-index resolution error comes first, then the interface-id one, then the resolved template |
| Dispatch.InterfaceDispatchUsesCheckedTable | com.oracle.max.vm.ext.maxri/src/com/oracle/max/vm/ext/maxri/MaxXirGenerator.java:937-989 | for an implemented interface the base word is the interface id the type check compares, and the entry is counted from it |
| Dispatch.DistinctInterfacesDistinctTables | com.oracle.max.vm.ext.maxri/src/com/oracle/max/vm/ext/maxri/MaxXirGenerator.java:937-989 | two interfaces a hub implements have different table bases |
| ArrayAccess.ArrayHubStoreCheck | com.oracle.max.vm.ext.maxri/src/com/oracle/max/vm/ext/maxri/MaxXirGenerator.java:2257-2262 | succeeds exactly when the value's hub is a subclass hub of the component class, else ArrayStoreException |
| ArrayAccess.ArrayLoad | com.oracle.max.vm.ext.maxri/src/com/oracle/max/vm/ext/maxri/MaxXirGenerator.java:856-877 | null array traps; an index outside the bounds fails with that index; otherwise the element |
| ArrayAccess.StoreRouteOf | com.oracle.max.vm.ext.maxri/src/com/oracle/max/vm/ext/maxri/MaxXirGenerator.java:805-855 | no store check, a null value, the component hub itself, or the runtime subclass test, each exactly in its case |
| ArrayAccess.ArrayStore | com.oracle.max.vm.ext.maxri/src/com/oracle/max/vm/ext/maxri/MaxXirGenerator.java:805-855 | a null array fails with NullPointerException whatever the checks; out-of-bounds indices fail as for loads; a successful store changes exactly the one element; an in-bounds failure is an ArrayStoreException from the subclass test |
| ArrayAccess.StoreCheckIsAssignability | com.oracle.max.vm.ext.maxri/src/com/oracle/max/vm/ext/maxri/MaxXirGenerator.java:805-855 | with a store check, an in-bounds store succeeds exactly when the value is null or assignable to the component class |
| ArrayAccess.UncheckedStoreSucceeds | com.oracle.max.vm.ext.maxri/src/com/oracle/max/vm/ext/maxri/MaxXirGenerator.java:805-855 | without a store check, every in-bounds store succeeds |
| TypeChecks.CheckcastLeaf | com.oracle.max.vm.ext.maxri/src/com/oracle/max/vm/ext/maxri/MaxXirGenerator.java:1562-1591 | null passes; a reference passes exactly when its hub is the checked hub; failure is ClassCastException |
| TypeChecks.InstanceofLeaf | com.oracle.max.vm.ext.maxri/src/com/oracle/max/vm/ext/maxri/MaxXirGenerator.java:1647-1677 | false for null; for a reference, true exactly when its hub is the checked hub |
| TypeChecks.LeafChecksAreSubtypeTests | com.oracle.max.vm.ext.maxri/src/com/oracle/max/vm/ext/maxri/MaxXirGenerator.java:1562-1677 | for a leaf class, the hub comparison is exactly assignability |
| TypeChecks.CheckcastNonLeaf | com.oracle.max.vm.ext.maxri/src/com/oracle/max/vm/ext/maxri/MaxXirGenerator.java:1592-1631 | a reference passes when its hub is the checked hub or the mtable probe for the type id finds that id |
| TypeChecks.InstanceofNonLeaf | com.oracle.max.vm.ext.maxri/src/com/oracle/max/vm/ext/maxri/MaxXirGenerator.java:1782-1824 | false for null; for a reference, the same probe |
| TypeChecks.NonLeafAcceptsIsSubtypeTest | com.oracle.max.vm.ext.maxri/src/com/oracle/max/vm/ext/maxri/MaxXirGenerator.java:1592-1631 | the probe accepts exactly the objects whose hub is a subclass hub of the type |
| TypeChecks.NonLeafChecksAreSubtypeTests | com.oracle.max.vm.ext.maxri/src/com/oracle/max/vm/ext/maxri/MaxXirGenerator.java:1592-1824 | the non-leaf checkcast and instanceof are exactly assignability tests |
| TypeChecks.CheckcastUnresolved | com.oracle.max.vm.ext.maxri/src/com/oracle/max/vm/ext/maxri/MaxXirGenerator.java:2245-2251 | null passes; else a resolution error, or success exactly for subclass hubs, else ClassCastException |
| TypeChecks.InstanceofUnresolved | com.oracle.max.vm.ext.maxri/src/com/oracle/max/vm/ext/maxri/MaxXirGenerator.java:2252-2256 | false for null; else a resolution error or the subclass test |
| TypeChecks.UnresolvedAgreesWithResolved | com.oracle.max.vm.ext.maxri/src/com/oracle/max/vm/ext/maxri/MaxXirGenerator.java:1632-1646 | once resolved, the unresolved checks give the same answers as the non-leaf ones |
| TypeChecks.MaterializeInstanceOf | com.oracle.max.vm.ext.maxri/src/com/oracle/max/vm/ext/maxri/MaxXirGenerator.java:1678-1731 | the true value exactly when the matching instanceof answers true, the false value otherwise (always for null) |
| TypeChecks.MaterializeUnresolved | com.oracle.max.vm.ext.maxri/src/com/oracle/max/vm/ext/maxri/MaxXirGenerator.java:1732-1760 | fails exactly when the unresolved instanceof fails; otherwise true or false value by its answer |
| TypeChecks.TypeAssert | com.oracle.max.vm.ext.maxri/src/com/oracle/max/vm/ext/maxri/MaxXirGenerator.java:1761-1781 | continues exactly when the object's hub is the given hub |
| TlabAllocation.BitAndLowMask | com.oracle.max.vm.ext.maxri/src/com/oracle/max/vm/ext/maxri/MaxXirGenerator.java:1064 | x AND (2^k - 1) is x mod 2^k |
| TlabAllocation.BitAndNotLowMask | com.oracle.max.vm.ext.maxri/src/com/oracle/max/vm/ext/maxri/MaxXirGenerator.java:1068 | x AND NOT (2^k - 1) rounds x down to a multiple of 2^k |
| TlabAllocation.RoundUpByMask | com.oracle.max.vm.ext.maxri/src/com/oracle/max/vm/ext/maxri/MaxXirGenerator.java:1058-1085 | adding the mask and clearing it gives the least multiple of 2^k at or above the size |
| TlabAllocation.MaskPathIsLeastMultiple | com.oracle.max.vm.ext.maxri/src/com/oracle/max/vm/ext/maxri/MaxXirGenerator.java:1077-1081 | the generic path yields the least aligned size at or above header + length * element size |
| TlabAllocation.AlignedElementsNeedNoRounding | com.oracle.max.vm.ext.maxri/src/com/oracle/max/vm/ext/maxri/MaxXirGenerator.java:1072-1076 | elements as large as the alignment leave the size aligned already |
| TlabAllocation.AlignedSizeIsLeastMultiple | com.oracle.max.vm.ext.maxri/src/com/oracle/max/vm/ext/maxri/MaxXirGenerator.java:1058-1085 | on every path (ARMv7 test-and-round, aligned elements, generic mask) the array size is the least aligned size at or above the raw size |
| TlabAllocation.AlignArraySize | com.oracle.max.vm.ext.maxri/src/com/oracle/max/vm/ext/maxri/MaxXirGenerator.java:1058-1083 | the aligned size is at least the raw size and less than one alignment unit above it, and is a multiple of the alignment except on the aligned-elements path off ARMv7 |
| TlabAllocation.ArraySizeFitsInt | com.oracle.max.vm.ext.maxri/src/com/oracle/max/vm/ext/maxri/MaxXirGenerator.java:1138-1160 | while the raw size plus alignment slack stays below 2^31, the aligned size fits the 32-bit int temp that holds it |
| TlabAllocation.AlignedSizesAgree | com.oracle.max.vm.ext.maxri/src/com/oracle/max/vm/ext/maxri/MaxXirGenerator.java:1058-1085 | the least aligned size is unique |
| TlabAllocation.ArmAndGenericPathsAgree | com.oracle.max.vm.ext.maxri/src/com/oracle/max/vm/ext/maxri/MaxXirGenerator.java:1058-1085 | the ARMv7 path and any other architecture's path compute the same size |
| TlabAllocation.Logged | com.oracle.max.vm.ext.maxri/src/com/oracle/max/vm/ext/maxri/MaxXirGenerator.java:1326-1352 | with logging on, the site, cell and size go into three consecutive words at the log tail (or at the flushed tail when the log is full) and the tail moves by three words; nothing else changes |
| TlabAllocation.Bumped | com.oracle.max.vm.ext.maxri/src/com/oracle/max/vm/ext/maxri/MaxXirGenerator.java:1288-1325 | when the object fits, the cell is the old mark and the mark moves by the size; otherwise the slow path's cell and state unchanged |
| TlabAllocation.Formatted | com.oracle.max.vm.ext.maxri/src/com/oracle/max/vm/ext/maxri/MaxXirGenerator.java:1288-1325 | the hub (and, for arrays, the length) is written into the cell and no other word changes |
| TlabAllocation.TupleAllocation | com.oracle.max.vm.ext.maxri/src/com/oracle/max/vm/ext/maxri/MaxXirGenerator.java:1288-1325 | an instance allocation is the bump followed by formatting, with the hub-first word index as the length of a hybrid |
| TlabAllocation.ArrayAllocation | com.oracle.max.vm.ext.maxri/src/com/oracle/max/vm/ext/maxri/MaxXirGenerator.java:1086-1137 | a negative length fails with that length; otherwise the bump of the aligned size followed by formatting with hub and length |
| TlabAllocation.BumpStaysInTlab | com.oracle.max.vm.ext.maxri/src/com/oracle/max/vm/ext/maxri/MaxXirGenerator.java:1288-1325 | the mark never passes the TLAB end, and a fitting cell lies between the old and new mark |
| TlabAllocation.ConsecutiveCellsAdjacent | com.oracle.max.vm.ext.maxri/src/com/oracle/max/vm/ext/maxri/MaxXirGenerator.java:1288-1325 | two fitting allocations in a row are adjacent |
| TlabAllocation.AllocatedCellFormatted | com.oracle.max.vm.ext.maxri/src/com/oracle/max/vm/ext/maxri/MaxXirGenerator.java:1086-1137 | a non-negative-length array allocation succeeds and its cell holds the hub and the length |
| TlabAllocation.Tlab.constructor | com.oracle.max.vm.ext.maxri/src/com/oracle/max/vm/ext/maxri/MaxXirGenerator.java:1288-1325 | a TLAB with the given mark, end and log tail and empty memory |
| TlabAllocation.Tlab.LogAllocation | com.oracle.max.vm.ext.maxri/src/com/oracle/max/vm/ext/maxri/MaxXirGenerator.java:1326-1352 | the TLAB's new state is the logged state |
| TlabAllocation.Tlab.BumpInline | com.oracle.max.vm.ext.maxri/src/com/oracle/max/vm/ext/maxri/MaxXirGenerator.java:1288-1325 | the inline bump reaches the state and cell Bumped describes |
| TlabAllocation.Tlab.BumpOutOfLine | com.oracle.max.vm.ext.maxri/src/com/oracle/max/vm/ext/maxri/MaxXirGenerator.java:1353-1409 | the out-of-line bump reaches the same state and cell as the inline one |
| TlabAllocation.Tlab.FormatCell | com.oracle.max.vm.ext.maxri/src/com/oracle/max/vm/ext/maxri/MaxXirGenerator.java:1288-1325 | memory becomes the formatted memory |
| TlabAllocation.Tlab.AllocateTuple | com.oracle.max.vm.ext.maxri/src/com/oracle/max/vm/ext/maxri/MaxXirGenerator.java:1288-1409 | the allocation reaches the state and cell TupleAllocation describes, inline or out of line |
| TlabAllocation.Tlab.AllocateArray | com.oracle.max.vm.ext.maxri/src/com/oracle/max/vm/ext/maxri/MaxXirGenerator.java:1086-1197 | the allocation reaches what ArrayAllocation describes; a failure changes nothing |
| RuntimeCalls.NewArrayCell | com.oracle.max.vm.ext.maxri/src/com/oracle/max/vm/ext/maxri/MaxXirGenerator.java:2090-2096 | a new array has the hub, the length and every element the default value |
| RuntimeCalls.Count | com.oracle.max.vm.ext.maxri/src/com/oracle/max/vm/ext/maxri/MaxXirGenerator.java:2194-2244 | an allocation of any rank creates at least one array, exactly one when the outer length is 0 or the rank is 1 |
| RuntimeCalls.MultiArrayElements | com.oracle.max.vm.ext.maxri/src/com/oracle/max/vm/ext/maxri/MaxXirGenerator.java:2165-2244 | distinct elements of an outer array are distinct sub-arrays of the component hub with the next length |
| RuntimeCalls.FirstNegative | com.oracle.max.vm.ext.maxri/src/com/oracle/max/vm/ext/maxri/MaxXirGenerator.java:2194-2244 | the first negative length, if any; none exactly when all are non-negative |
| RuntimeCalls.JavaHeap.constructor | com.oracle.max.vm.ext.maxri/src/com/oracle/max/vm/ext/maxri/MaxXirGenerator.java:2090-2244 | an empty heap |
| RuntimeCalls.JavaHeap.CreateArray | com.oracle.max.vm.ext.maxri/src/com/oracle/max/vm/ext/maxri/MaxXirGenerator.java:2090-2096 | exactly one new array cell is appended |
| RuntimeCalls.JavaHeap.SafeArrayStore | com.oracle.max.vm.ext.maxri/src/com/oracle/max/vm/ext/maxri/MaxXirGenerator.java:2165-2192 | exactly one element of one array changes |
| RuntimeCalls.JavaHeap.AllocatePrimitiveArray | com.oracle.max.vm.ext.maxri/src/com/oracle/max/vm/ext/maxri/MaxXirGenerator.java:2090-2096 | a negative length throws with that length and allocates nothing; otherwise one new array |
| RuntimeCalls.JavaHeap.AllocateObjectArray | com.oracle.max.vm.ext.maxri/src/com/oracle/max/vm/ext/maxri/MaxXirGenerator.java:2097-2103 | as above, with every element null |
| RuntimeCalls.JavaHeap.AllocateObject | com.oracle.max.vm.ext.maxri/src/com/oracle/max/vm/ext/maxri/MaxXirGenerator.java:2104-2107 | one new object of the hub |
| RuntimeCalls.JavaHeap.AllocateHybrid | com.oracle.max.vm.ext.maxri/src/com/oracle/max/vm/ext/maxri/MaxXirGenerator.java:2108-2117 | one new hybrid of the hub |
| RuntimeCalls.JavaHeap.AllocateMultiArray1 | com.oracle.max.vm.ext.maxri/src/com/oracle/max/vm/ext/maxri/MaxXirGenerator.java:2158-2163 | a negative length throws with it; otherwise a one-level array, old cells untouched |
| RuntimeCalls.JavaHeap.AllocateMultiArray2 | com.oracle.max.vm.ext.maxri/src/com/oracle/max/vm/ext/maxri/MaxXirGenerator.java:2165-2175 | any negative length throws; otherwise a two-level array of the lengths, old cells untouched |
| RuntimeCalls.JavaHeap.FillWithArrays | com.oracle.max.vm.ext.maxri/src/com/oracle/max/vm/ext/maxri/MaxXirGenerator.java:2185-2189 | the outer array is filled with fresh inner arrays, making a two-level array |
| RuntimeCalls.JavaHeap.AllocateMultiArray3 | com.oracle.max.vm.ext.maxri/src/com/oracle/max/vm/ext/maxri/MaxXirGenerator.java:2177-2192 | any negative length throws; otherwise a three-level array of the lengths, old cells untouched |
| RuntimeCalls.JavaHeap.RecursiveNewMultiArray | com.oracle.max.vm.ext.maxri/src/com/oracle/max/vm/ext/maxri/MaxXirGenerator.java:2194-2244 | an array of the remaining lengths at the next free address, using exactly Count cells |
| RuntimeCalls.JavaHeap.AllocateMultiArrayN | com.oracle.max.vm.ext.maxri/src/com/oracle/max/vm/ext/maxri/MaxXirGenerator.java:2194-2244 | the first negative length throws with it; then a resolution error; otherwise a nested array of all lengths |
| JavaStrings.IndexOf | com.sun.max/src/com/sun/max/vm/run/java/JavaRunScheme.java:627 | the first index of the character, or -1 exactly when it is absent |
| JavaStrings.IndexOfFrom | com.sun.max/src/com/sun/max/vm/run/java/JavaRunScheme.java:579 | the first index of the character at or after the position, or -1 exactly when absent there |
| JavaStrings.IndexOfFromIs | com.sun.max/src/com/sun/max/vm/run/java/JavaRunScheme.java:579 | the first occurrence at or after the position is where the search stops |
| JavaStrings.TrimStart | com.sun.max/src/com/sun/max/vm/run/java/JavaRunScheme.java:626 | the number of leading characters trim removes |
| JavaStrings.TrimEnd | com.sun.max/src/com/sun/max/vm/run/java/JavaRunScheme.java:626 | the end of the string once trailing trimmed characters are removed |
| JavaStrings.Trim | com.sun.max/src/com/sun/max/vm/run/java/JavaRunScheme.java:626 | the middle part of the string, empty or starting and ending with a kept character; empty exactly when every character is trimmed |
| JavaRunScheme.WordEnd | com.sun.max/src/com/sun/max/vm/run/java/JavaRunScheme.java:643-645 | the end of the run of non-spaces |
| JavaRunScheme.FieldsAreWords | com.sun.max/src/com/sun/max/vm/run/java/JavaRunScheme.java:624-648 | no field is empty or holds a space |
| JavaRunScheme.FieldsConcat | com.sun.max/src/com/sun/max/vm/run/java/JavaRunScheme.java:624-648 | the fields glued together are the text without its spaces |
| JavaRunScheme.NextField | com.sun.max/src/com/sun/max/vm/run/java/JavaRunScheme.java:639-645 | spaces then a run of non-spaces: that run is the next field |
| JavaRunScheme.SkipSpaces | com.sun.max/src/com/sun/max/vm/run/java/JavaRunScheme.java:639-641 | skips a maximal run of spaces |
| JavaRunScheme.SkipWord | com.sun.max/src/com/sun/max/vm/run/java/JavaRunScheme.java:643-645 | stops where WordEnd does |
| JavaRunScheme.JarFileClassPaths | com.sun.max/src/com/sun/max/vm/run/java/JavaRunScheme.java:624-648 | the trimmed class path as one entry when it has no space; otherwise exactly its maximal runs of non-spaces |
| JavaRunScheme.JarFileClassPathEntries | com.sun.max/src/com/sun/max/vm/run/java/JavaRunScheme.java:624-648 | with spaces, the entries are non-empty, space-free and hold all the other characters |
| JavaRunScheme.JarFileClassPathsSkippingBlank | com.sun.max/src/com/sun/max/vm/run/java/JavaRunScheme.java:624-648 | corrected: a blank class path gives no entry, and every entry is non-empty and space-free |
| JavaRunScheme.SplitJarOption | com.sun.max/src/com/sun/max/vm/run/java/JavaRunScheme.java:577-585 | fails with a syntax error exactly when the value is one character or has no colon; otherwise the text after the first colon is a jar option with no = in its path |
| JavaRunScheme.SplitJoinJarOption | com.sun.max/src/com/sun/max/vm/run/java/JavaRunScheme.java:577-585 | splitting a written option gives back its jar path and agent arguments |
| JavaRunScheme.JoinJarOptionInjective | com.sun.max/src/com/sun/max/vm/run/java/JavaRunScheme.java:577-585 | different jar options are written differently |
| JavaRunScheme.JarOptionFromJoin | com.sun.max/src/com/sun/max/vm/run/java/JavaRunScheme.java:579-584 | the path of a written option ends at its first =, and the arguments follow it |
| JavaRunScheme.Urls | com.sun.max/src/com/sun/max/vm/run/java/JavaRunScheme.java:598-611 | one URL for the jar and one per class-path entry |
| JavaRunScheme.BuildUrls | com.sun.max/src/com/sun/max/vm/run/java/JavaRunScheme.java:598-611 | fails exactly when some class-path entry is empty; otherwise exactly the URL list |
| JavaRunScheme.UrlsNameTheirParts | com.sun.max/src/com/sun/max/vm/run/java/JavaRunScheme.java:602-611 | each URL is a file URL naming its entry, verbatim when absolute, under the jar's directory otherwise |
| JavaRunScheme.BlankClassPathBreaksUrls | com.sun.max/src/com/sun/max/vm/run/java/JavaRunScheme.java:624-631 | as written: a blank class path gives one empty entry, so the URL list cannot be built |
| JavaRunScheme.SkippingBlankBuildsUrls | com.sun.max/src/com/sun/max/vm/run/java/JavaRunScheme.java:598-611 | with the corrected entries the URL list is always built |
| JavaRunScheme.FindDeclared | com.sun.max/src/com/sun/max/vm/run/java/JavaRunScheme.java:423 | the first declared method with the name and parameter types; none exactly when there is none |
| JavaRunScheme.LookupMainOrAgentClass | com.sun.max/src/com/sun/max/vm/run/java/JavaRunScheme.java:422-429 | returns a declared method with that signature that is public, static and void; otherwise NoSuchMethodException |
| JavaRunScheme.LookupFindsEntryMethod | com.sun.max/src/com/sun/max/vm/run/java/JavaRunScheme.java:422-429 | with unique signatures, succeeds exactly when such a public static void method is declared |
| JavaRunScheme.RetryList | com.sun.max/src/com/sun/max/vm/run/java/JavaRunScheme.java:154-176 | the methods kept for a later run are among the given ones, all of them retry, and all are kept exactly when all retry |
| JavaRunScheme.FirstFatal | com.sun.max/src/com/sun/max/vm/run/java/JavaRunScheme.java:154-176 | there is no fatal error exactly when no method fails fatally, and a fatal first method is the one reported |
| JavaRunScheme.RetryListAppend | com.sun.max/src/com/sun/max/vm/run/java/JavaRunScheme.java:154-176 | the methods kept for a later run, over a concatenation |
| JavaRunScheme.FirstFatalAppend | com.sun.max/src/com/sun/max/vm/run/java/JavaRunScheme.java:154-176 | the first error of a concatenation is the first part's, if any |
| JavaRunScheme.RetryListMembers | com.sun.max/src/com/sun/max/vm/run/java/JavaRunScheme.java:154-176 | a method is kept exactly when it was run and its library was missing |
| JavaRunScheme.FatalAt | com.sun.max/src/com/sun/max/vm/run/java/JavaRunScheme.java:154-176 | the first fatal method decides the run's error |
| JavaRunScheme.RunScheme.constructor | com.sun.max/src/com/sun/max/vm/run/java/JavaRunScheme.java:154-176 | the methods gathered at boot, no main class name yet |
| JavaRunScheme.RunScheme.RunNativeInitializationMethods | com.sun.max/src/com/sun/max/vm/run/java/JavaRunScheme.java:154-176 | without a fatal method, the methods whose library is missing are kept in order; otherwise the first fatal method's error and no change |
| JavaRunScheme.RunScheme.GetMainClassName | com.sun.max/src/com/sun/max/vm/run/java/JavaRunScheme.java:457-475 | a cached name is returned as is; otherwise the command-line name, or the jar's Main-Class (a missing one throws ClassNotFoundException), which is cached and published |
| JavaRunScheme.MainClassNameIsCached | com.sun.max/src/com/sun/max/vm/run/java/JavaRunScheme.java:457-475 | once a query succeeds, a second query returns the same name whatever the new inputs |
| AllocationProfiling.Wrap32 | com.sun.max/src/com/sun/max/vm/profilers/allocation/AllocationProfiler.java:267-268 | a value reduced to the Java int range, unchanged when already in it |
| AllocationProfiling.WrapTurn | com.sun.max/src/com/sun/max/vm/profilers/allocation/AllocationProfiler.java:267-268 | wrapping ignores whole turns of 2^32 |
| AllocationProfiling.Wrap32Add | com.sun.max/src/com/sun/max/vm/profilers/allocation/AllocationProfiler.java:340 | wrapping a partial sum first does not change the wrapped total |
| AllocationProfiling.JavaAdd | com.sun.max/src/com/sun/max/vm/profilers/allocation/AllocationProfiler.java:268 | Java int addition: the exact sum when it fits |
| AllocationProfiling.JavaAddWraps | com.sun.max/src/com/sun/max/vm/profilers/allocation/AllocationProfiler.java:268 | Java int addition is the exact sum wrapped |
| AllocationProfiling.JavaIncrementFlipsParity | com.sun.max/src/com/sun/max/vm/profilers/allocation/AllocationProfiler.java:469 | incrementing the cycle counter flips its parity, even across overflow |
| AllocationProfiling.RecordBuffer.constructor | com.sun.max/src/com/sun/max/vm/profilers/allocation/AllocationProfiler.java:160-177 | an empty buffer of the given size |
| AllocationProfiling.RecordBuffer.Append | com.sun.max/src/com/sun/max/vm/profilers/allocation/AllocationProfiler.java:266 | one record appended at the end |
| AllocationProfiling.RecordBuffer.ResetBuffer | com.sun.max/src/com/sun/max/vm/profilers/allocation/AllocationProfiler.java:425-436 | the buffer becomes empty |
| AllocationProfiling.BufferSize | com.sun.max/src/com/sun/max/vm/profilers/allocation/AllocationProfiler.java:147-158 | the buffer size is at least the minimum and at least the option, and is one of the two |
| AllocationProfiling.SumSizesAppend | com.sun.max/src/com/sun/max/vm/profilers/allocation/AllocationProfiler.java:340 | the size sum of a concatenation is the sum of the sums |
| AllocationProfiling.AddSizesIsWrappedSum | com.sun.max/src/com/sun/max/vm/profilers/allocation/AllocationProfiler.java:340 | adding sizes one by one in Java ints is the exact sum wrapped |
| AllocationProfiling.AddSizesAppend | com.sun.max/src/com/sun/max/vm/profilers/allocation/AllocationProfiler.java:356-365 | adding two runs in turn is adding their concatenation |
| AllocationProfiling.AddSizesSnoc | com.sun.max/src/com/sun/max/vm/profilers/allocation/AllocationProfiler.java:340 | adding one more record adds its size |
| AllocationProfiling.SurvivorsAreMovedRecords | com.sun.max/src/com/sun/max/vm/profilers/allocation/AllocationProfiler.java:321-342 | the survivors are exactly the moved records of the live objects, never more than the records |
| AllocationProfiling.LockKeepsValid | com.sun.max/src/com/sun/max/vm/profilers/allocation/AllocationProfiler.java:539-555 | locking a consistent lock succeeds, deepens it by one, makes the caller owner of a free lock, and reports whether it disabled safepoints |
| AllocationProfiling.LockStep | com.sun.max/src/com/sun/max/vm/profilers/allocation/AllocationProfiler.java:539-555 | outside the boot image, locking fails exactly when depth zero has an owner; otherwise it deepens by one, disables safepoints, takes ownership at depth zero, and reports whether it disabled them |
| AllocationProfiling.UnlockStep | com.sun.max/src/com/sun/max/vm/profilers/allocation/AllocationProfiler.java:561-577 | outside the boot image, unlocking fails exactly at depth zero, for a non-owner, or with safepoints enabled; otherwise it goes one shallower, drops the owner exactly at depth zero, and re-enables safepoints if the lock disabled them |
| AllocationProfiling.UnlockUndoesLock | com.sun.max/src/com/sun/max/vm/profilers/allocation/AllocationProfiler.java:539-576 | an unlock by the owner after a lock restores the lock exactly |
| AllocationProfiling.UnlockByOtherThreadIsFatal | com.sun.max/src/com/sun/max/vm/profilers/allocation/AllocationProfiler.java:560-567 | an unlock by a thread that does not own the lock fails the owner check |
| AllocationProfiling.NestedLockKeepsSafepointsDisabled | com.sun.max/src/com/sun/max/vm/profilers/allocation/AllocationProfiler.java:539-576 | a nested lock and unlock leave safepoints disabled for the outer holder |
| AllocationProfiling.WarmupFinished | com.sun.max/src/com/sun/max/vm/profilers/allocation/AllocationProfiler.java:207-209 | finished when the explicit-GC count passes the threshold or the threshold is 0 |
| AllocationProfiling.WarmupFinishedStays | com.sun.max/src/com/sun/max/vm/profilers/allocation/AllocationProfiler.java:207-209 | once finished, more explicit GCs keep it finished |
| AllocationProfiling.ObjectWarmupFinished | com.sun.max/src/com/sun/max/vm/profilers/allocation/AllocationProfiler.java:211-213 | object warm-up is finished only once the flare counter has reached the threshold |
| AllocationProfiling.ObjectWarmupWindow | com.sun.max/src/com/sun/max/vm/profilers/allocation/AllocationProfiler.java:211-213 | when the bounds fit in an int, the flare counter lies in [threshold, threshold + window) |
| AllocationProfiling.ObjectWarmupOverflow | com.sun.max/src/com/sun/max/vm/profilers/allocation/AllocationProfiler.java:211-213 | when threshold + window - 1 overflows, no counter is in the window |
| AllocationProfiling.AllocationProfiler.constructor | com.sun.max/src/com/sun/max/vm/profilers/allocation/AllocationProfiler.java:142-193 | buffers sized by BufferSize, all empty, counters zero, cycle 1, lock free |
| AllocationProfiling.AllocationProfiler.AsCharArray | com.sun.max/src/com/sun/max/vm/profilers/allocation/AllocationProfiler.java:220-229 | a string shorter than the buffer is copied, NUL-terminated and its length recorded; a longer one fills the buffer and then runs off its end |
| AllocationProfiling.AllocationProfiler.Lock | com.sun.max/src/com/sun/max/vm/profilers/allocation/AllocationProfiler.java:539-555 | the new lock state and result are LockStep's; a failed check leaves safepoints disabled |
| AllocationProfiling.AllocationProfiler.Unlock | com.sun.max/src/com/sun/max/vm/profilers/allocation/AllocationProfiler.java:560-576 | the new lock state is UnlockStep's; a failed check comes after the depth was lowered |
| AllocationProfiling.AllocationProfiler.Profile | com.sun.max/src/com/sun/max/vm/profilers/allocation/AllocationProfiler.java:245-271 | under the lock, records the allocation with the next id and adds its size; a recursive allocation is fatal and a full buffer exits; for a consistent lock held by the caller or free, the lock ends as it started |
| AllocationProfiling.AllocationProfiler.StoreSurvivors | com.sun.max/src/com/sun/max/vm/profilers/allocation/AllocationProfiler.java:314-343 | appends exactly the moved records of the live objects, in order, and adds their sizes; exits exactly when they do not fit |
| AllocationProfiling.AllocationProfiler.ProfileSurvivors | com.sun.max/src/com/sun/max/vm/profilers/allocation/AllocationProfiler.java:354-365 | in an even cycle the first survivor buffer then the new objects are filtered into the second, in an odd cycle into the first; succeeds exactly when they fit |
| AllocationProfiling.AllocationProfiler.PostGCActions | com.sun.max/src/com/sun/max/vm/profilers/allocation/AllocationProfiler.java:413-470 | after filtering, the buffer just read and the new objects are empty, the survivor total becomes the new total, an explicit GC is counted, and the cycle advances, with the profiler consistent |
| AllocationProfiling.SurvivorsStep | com.sun.max/src/com/sun/max/vm/profilers/allocation/AllocationProfiler.java:321-342 | one more record of the source: its moved record appended and its size added when it lives |
| AllocationProfiling.SurvivorsGrow | com.sun.max/src/com/sun/max/vm/profilers/allocation/AllocationProfiler.java:321-342 | a longer prefix never has fewer survivors |
## Left out

- The XIR assembler is not modelled: its instructions, operands, labels, registers and the text of each template. A template is its variant (the build flags it was made with) and the ordered list of runtime calls it requests through stubs. A direct `CiRuntimeCall` made by the assembler, such as the deoptimisation in the type assertion's slow path, is not part of that list. Their effect at run time is given by the functions of `ArrayAccess`, `Dispatch`, `TypeChecks`, `TlabAllocation` and `RuntimeCalls`.
- The reflective scan for a runtime method by name is left out. Runtime entry points are an enumeration with a signature table, so the "could not find runtime call" path and the null stub it appends cannot arise.
- The kind checks in `addCallRuntimeThroughStub` are Java `assert`s. They are modelled as checks that always run, as in a build with assertions enabled; with assertions off, a mismatching stub would be created silently.
- `printXirTemplates` output and `Log` output are left out, and so is all printing of the profiler: `dumpBuffer`, `dumpSurvivors`, the printing in `preGCActions`, and the verbose messages.
- `useTLABs()` depends on the heap scheme and on debug tagging. It is a parameter of `XirGenerator.MaxXirGenerator.GenNewInstance` and `XirGenerator.MaxXirGenerator.GenNewArray`.
- `hubFor`, `guardFor` and `guardForComponentType` read VM class actors; guards and hubs are opaque argument values (`XirGenerator.TypeGuard`).
- The profiler flag store of the corrected exit-point epilogue is given by its effect on the flag (`Templates.ProfilerFlagAfter`). The thread-local offset and the latch register are not modelled, and neither is `genPrologue`, which sets the flag.
- Runtime entry points whose bodies call into the rest of the VM are modelled only by their signatures, with no body: class, field and method resolution, monitors, exception throwing, the profiler calls and the slow-path allocation. Resolution results and the slow path's cell are parameters of the functions that use them.
- Word-sized arithmetic is unbounded: the vtable offset and the TLAB mark. The model does not overflow where a machine word would.
- `TlabAllocation.AlignArraySize`: the array size is a 32-bit int temp in the templates, but the model computes it unbounded. The two agree only while header + length * element size + (alignment - 1) stays below 2^31 (`TlabAllocation.ArraySizeFitsInt`). A `long[]` or `double[]` of 2^28 or more elements goes past that bound. The same bound limits `TlabAllocation.AlignedSizeIsLeastMultiple`, `TlabAllocation.ArmAndGenericPathsAgree`, `TlabAllocation.ArrayAllocation` and `TlabAllocation.Tlab.AllocateArray`: their statements hold for the source only below it.
- `ArrayAccess.ArrayStore`: with a store check, no bounds check and a null value, the templates load no hub and do not mark the element store as a trapping access (MaxXirGenerator.java:838). The model still reports NullPointerException for a null array there.
- `Templates.BuildNewMultiArray` requires a rank of at least 1, because the generator builds ranks 1 to 6 only.
- Concurrency is left out. The profiler lock is modelled for one caller at a time, with the current thread as a parameter, and safepoint disabling is a boolean field.
- `AllocationProfiling.AllocationProfiler.Lock`: the lock depth is an unbounded integer. A Java int would wrap after 2^31 nested locks.
- `AllocationProfiling.AllocationProfiler.StoreSurvivors` requires distinct source and target buffers, as every caller passes.
- RecordBuffer.java is not part of this model:
  - A record buffer is a sequence of records with a capacity.
  - `record`, `currentIndex` and `resetBuffer` are read from their use in the profiler.
  - The type-name character buffer's capacity (`RecordBuffer.MAX_CHARS`) is a constructor parameter.
- The collector's liveness test, forwarding addresses and NUMA node lookup (`findNumaNodes`, `utilsObject.findNode`) are function parameters of the survivor methods.
- `MaxineVM.exit(1)` is the outcome `Exit(1)`. The `FatalError` checks and the one `ProgramError` check (safepoints found enabled in `unlock`, AllocationProfiler.java:572) are the outcome `Fatal`.
- In the run scheme:
  - Opening a jar file and reading its manifest attributes are parameters.
  - `File.getParent`, `File.separator` and `getAbsolutePath` are parameters.
  - Class loading, agents, VM properties other than `sun.java.command`, and the run phases of the scheme are left out.
  - A reflective method lookup is a list of declared methods (`JavaRunScheme.FindDeclared`).
- `JavaRunScheme.RunScheme.RunNativeInitializationMethods`: method invocation is represented by how it ends (`InvokeOutcome`).

## Findings

| source | as written | input that shows it | evidently intended | confidence | as-written member | corrected member |
|---|---|---|---|---|---|---|
| com.oracle.max.vm.ext.maxri/src/com/oracle/max/vm/ext/maxri/MaxXirGenerator.java:599-610 | `genNewMultiArray` indexes `multiNewArrayTemplate[rank]` before the bound check. That check sits on the resolved path, reached only for ranks below 2, so it can never fire. | a `multianewarray` with 7 dimensions: the table has 7 slots, so the index is out of bounds | a rank with no template is reported as unimplemented | not executed | XirGenerator.MaxXirGenerator.GenNewMultiArrayAsWritten, XirGenerator.MaxXirGenerator.MultiArrayRankPastTable | XirGenerator.MaxXirGenerator.GenNewMultiArray |
| com.sun.max/src/com/sun/max/vm/run/java/JavaRunScheme.java:624-631 | `jarFileClassPaths` returns the trimmed class path as the only entry when it holds no space, even when it is empty. The URL loop then reads `charAt(0)` of that empty entry. | a manifest whose Class-Path attribute is blank (`""` or `"   "`) | a blank class path names no entry, and the URL list holds only the jar | not executed | JavaRunScheme.BuildUrls, JavaRunScheme.BlankClassPathBreaksUrls | JavaRunScheme.JarFileClassPathsSkippingBlank, JavaRunScheme.SkippingBlankBuildsUrls |
| com.oracle.max.vm.ext.maxri/src/com/oracle/max/vm/ext/maxri/MaxXirGenerator.java:381-394 | On a running VM, `genEpilogue` emits the exit point's store of zero to the profiler flag into the generator's shared assembler, which is never finished. It then returns the prebuilt `epilogueTemplate`, so no epilogue holds the store. | a method named by the allocation profiler's exit point, compiled on a running VM: its epilogue is every method's and the flag stays set | the exit point's epilogue clears the flag the entry point's prologue sets, from a template of its own as `genPrologue` builds | not executed | XirGenerator.MaxXirGenerator.GenEpilogueAsWritten, XirGenerator.MaxXirGenerator.ExitPointEpilogueKeepsProfilerFlag | XirGenerator.MaxXirGenerator.GenEpilogue |
