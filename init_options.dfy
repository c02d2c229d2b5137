/** The user override read from `initializationOptions.lsp`:
    `serverPath` and `serverArgs`. */
module InitOptions {
  import opened Results
  import opened Json

  /** The `lsp` member of the initialization options, when there is one. */
  function Lsp(options: Option<Json>): Option<Json>
  {
    if options.Some? then Get(options.value, "lsp") else None
  }

  /** The string elements of a JSON array, in order; other elements are skipped. */
  function Strings(items: seq<Json>): seq<string>
  {
    if items == [] then []
    else (if items[0].Str? then [items[0].s] else []) + Strings(items[1..])
  }

  /** The launch arguments: the strings of `lsp.serverArgs` when it is an array,
      and none otherwise. */
  function ServerArgs(options: Option<Json>): seq<string>
  {
    match Lsp(options)
    case None => []
    case Some(lsp) =>
      match Get(lsp, "serverArgs")
      case Some(Array(items)) => Strings(items)
      case _ => []
  }

  /** The override path: `lsp.serverPath` when it is a non-empty string. */
  function ServerPath(options: Option<Json>): Option<string>
  {
    match Lsp(options)
    case None => None
    case Some(lsp) =>
      match Get(lsp, "serverPath")
      case Some(Str(path)) => if path != "" then Some(path) else None
      case _ => None
  }

  /** The argument collection of `initialize`, step by step: start empty,
      clear again when the array is non-empty, then push every string element. */
  method CollectServerArgs(options: Option<Json>) returns (serverArgs: seq<string>)
    ensures serverArgs == ServerArgs(options)
  {
    serverArgs := [];
    if options.Some? {
      var lsp := Get(options.value, "lsp");
      if lsp.Some? {
        var args := Get(lsp.value, "serverArgs");
        if args.Some? && args.value.Array? {
          var items := args.value.items;
          if items != [] {
            serverArgs := [];
          }
          var i := 0;
          while i < |items|
            invariant 0 <= i <= |items|
            invariant serverArgs == Strings(items[..i])
          {
            StringsAppend(items[..i], [items[i]]);
            assert items[..i + 1] == items[..i] + [items[i]];
            if items[i].Str? {
              serverArgs := serverArgs + [items[i].s];
            }
            i := i + 1;
          }
          assert items[..|items|] == items;
        }
      }
    }
  }

  /** No arguments are collected without an `lsp` section whose `serverArgs`
      is an array; with one, they are its string elements. */
  lemma ServerArgsEmptyUnlessArray(options: Option<Json>)
    ensures (|| Lsp(options).None?
             || Get(Lsp(options).value, "serverArgs").None?
             || !Get(Lsp(options).value, "serverArgs").value.Array?) ==> ServerArgs(options) == []
    ensures (&& Lsp(options).Some?
             && Get(Lsp(options).value, "serverArgs").Some?
             && Get(Lsp(options).value, "serverArgs").value.Array?)
            ==> ServerArgs(options) == Strings(Get(Lsp(options).value, "serverArgs").value.items)
  {
  }

  /** Collecting the strings of two arrays one after the other is collecting
      the strings of their concatenation: the order of the elements is kept. */
  lemma {:induction false} StringsAppend(a: seq<Json>, b: seq<Json>)
    ensures Strings(a + b) == Strings(a) + Strings(b)
  {
    if a == [] {
      assert a + b == b;
    } else {
      assert (a + b)[1..] == a[1..] + b;
      StringsAppend(a[1..], b);
    }
  }

  /** A string is collected exactly when the array holds it as a string element;
      nothing is collected exactly when the array holds no string. */
  lemma {:induction false} StringsMembers(items: seq<Json>)
    ensures forall s :: s in Strings(items) <==> Str(s) in items
    ensures Strings(items) == [] <==> forall i :: 0 <= i < |items| ==> !items[i].Str?
    ensures |Strings(items)| <= |items|
  {
    if items != [] {
      StringsMembers(items[1..]);
      assert items == [items[0]] + items[1..];
      forall i | 0 < i < |items| ensures items[i] == items[1..][i - 1] { }
    }
  }

  /** When every element is a string, the collected list is the array itself
      read as strings, element by element. */
  lemma {:induction false} StringsOfAllStrings(items: seq<Json>)
    requires forall i :: 0 <= i < |items| ==> items[i].Str?
    ensures |Strings(items)| == |items|
    ensures forall i :: 0 <= i < |items| ==> Strings(items)[i] == items[i].s
  {
    if items != [] {
      StringsOfAllStrings(items[1..]);
    }
  }
}
