/**
 * The document pipeline: collectors, then validators per document, then
 * loaders, with every stage failure turned into an error string and the
 * run itself never failing.
 */
module Etl {
  import opened Wrappers
  import opened Values

  /** One piece of extracted municipal budget data. */
  datatype BudgetDocument = BudgetDocument(
    cityName: string,
    year: int,
    category: string,
    amount: real,
    documentUrl: string,
    extractedText: string,
    metadata: map<string, Value>,
    sourceType: string,
    collectionDate: string)

  const DocumentKeys: set<string> := {"city_name", "year", "category", "amount", "document_url",
                                      "extracted_text", "metadata", "source_type", "collection_date"}

  /** `BudgetDocument.to_dict`: one entry per field, under the field's snake-case name. */
  function DocumentToDict(d: BudgetDocument): (m: map<string, Value>)
    ensures m.Keys == DocumentKeys
  {
    map["city_name" := Str(d.cityName), "year" := Int(d.year), "category" := Str(d.category),
        "amount" := Float(d.amount), "document_url" := Str(d.documentUrl),
        "extracted_text" := Str(d.extractedText), "metadata" := Dict(d.metadata),
        "source_type" := Str(d.sourceType), "collection_date" := Str(d.collectionDate)]
  }

  /** Reads a dictionary of the shape `to_dict` produces back into a document. */
  function DocumentFromDict(m: map<string, Value>): (d: Option<BudgetDocument>)
  {
    if DocumentKeys <= m.Keys
       && m["city_name"].Str? && m["year"].Int? && m["category"].Str? && m["amount"].Float?
       && m["document_url"].Str? && m["extracted_text"].Str? && m["metadata"].Dict?
       && m["source_type"].Str? && m["collection_date"].Str?
    then
      Some(BudgetDocument(m["city_name"].s, m["year"].i, m["category"].s, m["amount"].x,
                          m["document_url"].s, m["extracted_text"].s, m["metadata"].fields,
                          m["source_type"].s, m["collection_date"].s))
    else None
  }

  /** `to_dict` loses nothing. */
  lemma DocumentRoundTrip(d: BudgetDocument)
    ensures DocumentFromDict(DocumentToDict(d)) == Some(d)
  {
  }

  /** What a call into a stage does: return a value or raise with a message. */
  datatype Outcome<T> = Returned(value: T) | Raised(message: string)

  /** The keyword arguments `run` passes on to every collector. */
  type Options = map<string, Value>

  /** A collector: its name and what `collect(**kwargs)` does. */
  datatype Collector = Collector(name: string, collect: Options -> Outcome<seq<BudgetDocument>>)

  /** A parser: registered with the pipeline, never called by `run`. */
  datatype Parser = Parser(name: string)

  /** A validator: what `validate(doc)` and `get_validation_errors(doc)` do. */
  datatype Validator = Validator(
    name: string,
    validate: BudgetDocument -> Outcome<bool>,
    validationErrors: BudgetDocument -> Outcome<seq<string>>)

  /** A loader: what `load(docs)` does. */
  datatype Loader = Loader(name: string, load: seq<BudgetDocument> -> Outcome<bool>)

  /** The `results` dictionary `run` returns. */
  datatype RunSummary = RunSummary(collected: nat, parsed: nat, validated: nat, loaded: nat, errors: seq<string>)

  /* ---------------- Collection ---------------- */

  function CollectionError(c: Collector, e: string): (msg: string)
  {
    "Collection failed for " + c.name + ": " + e
  }

  /** The state after some collectors have run: documents gathered and errors recorded. */
  datatype Collection = Collection(documents: seq<BudgetDocument>, errors: seq<string>)

  /** The collection phase over `cs`, collector by collector in registration order. */
  function Collect(cs: seq<Collector>, opts: Options): (collection: Collection)
    decreases |cs|
  {
    if cs == [] then Collection([], [])
    else
      var prev := Collect(cs[..|cs| - 1], opts);
      var c := cs[|cs| - 1];
      match c.collect(opts)
      case Returned(docs) => Collection(prev.documents + docs, prev.errors)
      case Raised(e) => Collection(prev.documents, prev.errors + [CollectionError(c, e)])
  }

  /**
   * A failing collector does not stop collection: running `cs1` and then
   * `cs2` gathers what each gathers alone, in that order, and the errors
   * of each, in that order.
   */
  lemma {:induction false} CollectAppend(cs1: seq<Collector>, cs2: seq<Collector>, opts: Options)
    ensures Collect(cs1 + cs2, opts).documents == Collect(cs1, opts).documents + Collect(cs2, opts).documents
    ensures Collect(cs1 + cs2, opts).errors == Collect(cs1, opts).errors + Collect(cs2, opts).errors
    decreases |cs2|
  {
    if cs2 == [] {
      assert cs1 + cs2 == cs1;
    } else {
      var all := cs1 + cs2;
      assert all[..|all| - 1] == cs1 + cs2[..|cs2| - 1];
      assert all[|all| - 1] == cs2[|cs2| - 1];
      CollectAppend(cs1, cs2[..|cs2| - 1], opts);
    }
  }

  /** The documents a collector contributes when it succeeds, in registration order. */
  function SucceededTotal(cs: seq<Collector>, opts: Options): (total: nat)
  {
    if cs == [] then 0
    else (match cs[0].collect(opts) case Returned(docs) => |docs| case Raised(_) => 0)
         + SucceededTotal(cs[1..], opts)
  }

  /** How many collectors raise. */
  function FailedCount(cs: seq<Collector>, opts: Options): (failed: nat)
  {
    if cs == [] then 0
    else (if cs[0].collect(opts).Raised? then 1 else 0) + FailedCount(cs[1..], opts)
  }

  /**
   * The number collected is the sum of what the successful collectors
   * returned, and every collector that raises leaves exactly one error.
   */
  lemma {:induction false} CollectCounts(cs: seq<Collector>, opts: Options)
    ensures |Collect(cs, opts).documents| == SucceededTotal(cs, opts)
    ensures |Collect(cs, opts).errors| == FailedCount(cs, opts)
    ensures forall e :: e in Collect(cs, opts).errors ==>
              exists i :: 0 <= i < |cs| && cs[i].collect(opts).Raised? &&
                e == CollectionError(cs[i], cs[i].collect(opts).message)
    decreases |cs|
  {
    if cs != [] {
      CollectCounts(cs[1..], opts);
      assert cs == [cs[0]] + cs[1..];
      CollectAppend([cs[0]], cs[1..], opts);
      assert [cs[0]][..0] == [];
      var errs := Collect(cs, opts).errors;
      forall e | e in errs
        ensures exists i :: 0 <= i < |cs| && cs[i].collect(opts).Raised? &&
                  e == CollectionError(cs[i], cs[i].collect(opts).message)
      {
        if e in Collect([cs[0]], opts).errors {
          assert cs[0].collect(opts).Raised?;
        } else {
          assert e in Collect(cs[1..], opts).errors;
          var i :| 0 <= i < |cs[1..]| && cs[1..][i].collect(opts).Raised? &&
                   e == CollectionError(cs[1..][i], cs[1..][i].collect(opts).message);
          assert cs[i + 1] == cs[1..][i];
        }
      }
    }
  }

  /* ---------------- Validation ---------------- */

  function ValidationError(v: Validator, e: string): (msg: string)
  {
    "Validation failed for " + v.name + ": " + e
  }

  /** The validator returns true for the document. */
  predicate Accepts(v: Validator, d: BudgetDocument)
  {
    v.validate(d) == Returned(true)
  }

  /**
   * What a validator that does not accept the document adds to the errors:
   * its `get_validation_errors` list when it returned false, one labelled
   * string when `validate` or `get_validation_errors` raised.
   */
  function Report(v: Validator, d: BudgetDocument): (errors: seq<string>)
  {
    match v.validate(d)
    case Raised(e) => [ValidationError(v, e)]
    case Returned(_) =>
      match v.validationErrors(d)
      case Returned(errs) => errs
      case Raised(e) => [ValidationError(v, e)]
  }

  /** Whether a document passes and what its check adds to the errors. */
  datatype Verdict = Verdict(valid: bool, errors: seq<string>)

  /** The validator chain for one document, stopping at the first validator that does not accept it. */
  function Check(vs: seq<Validator>, d: BudgetDocument): (verdict: Verdict)
  {
    if vs == [] then Verdict(true, [])
    else if Accepts(vs[0], d) then Check(vs[1..], d)
    else Verdict(false, Report(vs[0], d))
  }

  /** A document passes exactly when every validator accepts it. */
  lemma {:induction false} CheckValidIff(vs: seq<Validator>, d: BudgetDocument)
    ensures Check(vs, d).valid <==> forall i :: 0 <= i < |vs| ==> Accepts(vs[i], d)
    ensures Check(vs, d).valid ==> Check(vs, d).errors == []
  {
    if vs != [] {
      CheckValidIff(vs[1..], d);
      if Accepts(vs[0], d) {
        assert forall i :: 1 <= i < |vs| ==> vs[i] == vs[1..][i - 1];
      }
    }
  }

  /**
   * The first validator that does not accept a document ends its chain: the
   * verdict is that validator's report alone, whatever comes after it.
   */
  lemma {:induction false} CheckStopsAtFirstRejection(vs: seq<Validator>, d: BudgetDocument, k: nat, rest: seq<Validator>)
    requires k < |vs|
    requires forall i :: 0 <= i < k ==> Accepts(vs[i], d)
    requires !Accepts(vs[k], d)
    ensures Check(vs, d) == Verdict(false, Report(vs[k], d))
    ensures Check(vs[..k + 1] + rest, d) == Check(vs, d)
    decreases k
  {
    var ws := vs[..k + 1] + rest;
    assert ws[0] == vs[0];
    if k > 0 {
      assert Accepts(vs[0], d);
      CheckStopsAtFirstRejection(vs[1..], d, k - 1, rest);
      assert ws[1..] == vs[1..][..k] + rest;
    }
  }

  /** The state after some documents have been checked. */
  datatype Validation = Validation(accepted: seq<BudgetDocument>, errors: seq<string>)

  /** The validation phase over `docs`, document by document in collected order. */
  function ValidateAll(vs: seq<Validator>, docs: seq<BudgetDocument>): (validation: Validation)
    decreases |docs|
  {
    if docs == [] then Validation([], [])
    else
      var prev := ValidateAll(vs, docs[..|docs| - 1]);
      var d := docs[|docs| - 1];
      var verdict := Check(vs, d);
      Validation(prev.accepted + (if verdict.valid then [d] else []), prev.errors + verdict.errors)
  }

  /** `xs` is `ys` with some elements left out and the rest in their order. */
  ghost predicate Subsequence<T>(xs: seq<T>, ys: seq<T>)
    decreases |ys|
  {
    if ys == [] then xs == []
    else (xs != [] && xs[|xs| - 1] == ys[|ys| - 1] && Subsequence(xs[..|xs| - 1], ys[..|ys| - 1]))
         || Subsequence(xs, ys[..|ys| - 1])
  }

  /** A document is kept exactly when it passes its chain, and never more are kept than collected. */
  lemma {:induction false} ValidatedMembership(vs: seq<Validator>, docs: seq<BudgetDocument>)
    ensures forall d :: d in ValidateAll(vs, docs).accepted <==> d in docs && Check(vs, d).valid
    ensures |ValidateAll(vs, docs).accepted| <= |docs|
    decreases |docs|
  {
    if docs != [] {
      var init := docs[..|docs| - 1];
      ValidatedMembership(vs, init);
      assert docs == init + [docs[|docs| - 1]];
    }
  }

  /** The kept documents are the collected ones in collected order. */
  lemma {:induction false} ValidatedInOrder(vs: seq<Validator>, docs: seq<BudgetDocument>)
    ensures Subsequence(ValidateAll(vs, docs).accepted, docs)
    decreases |docs|
  {
    if docs != [] {
      var init := docs[..|docs| - 1];
      ValidatedInOrder(vs, init);
      var acc := ValidateAll(vs, docs).accepted;
      if Check(vs, docs[|docs| - 1]).valid {
        assert acc[..|acc| - 1] == ValidateAll(vs, init).accepted;
      } else {
        assert acc == ValidateAll(vs, init).accepted;
      }
    }
  }

  /** The documents that pass their chain, filtered front to back; a reference for `ValidateAll`. */
  function Passing(vs: seq<Validator>, docs: seq<BudgetDocument>): (kept: seq<BudgetDocument>)
    ensures |kept| <= |docs|
  {
    if docs == [] then []
    else (if Check(vs, docs[0]).valid then [docs[0]] else []) + Passing(vs, docs[1..])
  }

  /** Filtering a concatenation filters each part. */
  lemma {:induction false} PassingAppend(vs: seq<Validator>, a: seq<BudgetDocument>, b: seq<BudgetDocument>)
    ensures Passing(vs, a + b) == Passing(vs, a) + Passing(vs, b)
  {
    if a != [] {
      assert (a + b)[0] == a[0];
      assert (a + b)[1..] == a[1..] + b;
      PassingAppend(vs, a[1..], b);
    } else {
      assert a + b == b;
    }
  }

  /** The validation phase keeps exactly the passing documents, each occurrence once, in collected order. */
  lemma {:induction false} ValidatedArePassing(vs: seq<Validator>, docs: seq<BudgetDocument>)
    ensures ValidateAll(vs, docs).accepted == Passing(vs, docs)
    decreases |docs|
  {
    if docs != [] {
      var init := docs[..|docs| - 1];
      var last := docs[|docs| - 1];
      ValidatedArePassing(vs, init);
      assert docs == init + [last];
      PassingAppend(vs, init, [last]);
      assert [last][1..] == [];
    }
  }

  /** A document occurs among the kept ones as often as it was collected if it passes, and never otherwise. */
  lemma {:induction false} PassingMultiplicity(vs: seq<Validator>, docs: seq<BudgetDocument>, d: BudgetDocument)
    ensures multiset(Passing(vs, docs))[d] == if Check(vs, d).valid then multiset(docs)[d] else 0
  {
    if docs != [] {
      PassingMultiplicity(vs, docs[1..], d);
      assert docs == [docs[0]] + docs[1..];
      assert multiset(docs) == multiset([docs[0]]) + multiset(docs[1..]);
    }
  }

  /** How many times each document is kept by the validation phase. */
  lemma ValidatedMultiplicity(vs: seq<Validator>, docs: seq<BudgetDocument>, d: BudgetDocument)
    ensures multiset(ValidateAll(vs, docs).accepted)[d] == if Check(vs, d).valid then multiset(docs)[d] else 0
  {
    ValidatedArePassing(vs, docs);
    PassingMultiplicity(vs, docs, d);
  }

  /* ---------------- Loading ---------------- */

  function LoadingError(l: Loader): (msg: string)
  {
    "Loading failed for " + l.name
  }

  /** The state after some loaders have run. */
  datatype Loading = Loading(loaded: nat, errors: seq<string>)

  /** The loading phase: every loader gets the same document list, in registration order. */
  function LoadAll(ls: seq<Loader>, docs: seq<BudgetDocument>): (loading: Loading)
    decreases |ls|
  {
    if ls == [] then Loading(0, [])
    else
      var prev := LoadAll(ls[..|ls| - 1], docs);
      var l := ls[|ls| - 1];
      match l.load(docs)
      case Returned(ok) =>
        if ok then Loading(prev.loaded + |docs|, prev.errors)
        else Loading(prev.loaded, prev.errors + [LoadingError(l)])
      case Raised(e) => Loading(prev.loaded, prev.errors + [LoadingError(l) + ": " + e])
  }

  /** How many loaders return true for `docs`. */
  function SucceedingLoaders(ls: seq<Loader>, docs: seq<BudgetDocument>): (n: nat)
    ensures n <= |ls|
  {
    if ls == [] then 0
    else (if ls[0].load(docs) == Returned(true) then 1 else 0) + SucceedingLoaders(ls[1..], docs)
  }

  /** The succeeding-loader count of a list is that of its first part plus its last loader. */
  lemma {:induction false} SucceedingLoadersSnoc(ls: seq<Loader>, docs: seq<BudgetDocument>)
    requires ls != []
    ensures SucceedingLoaders(ls, docs) ==
              SucceedingLoaders(ls[..|ls| - 1], docs) + (if ls[|ls| - 1].load(docs) == Returned(true) then 1 else 0)
    decreases |ls|
  {
    if |ls| > 1 {
      assert ls[1..][..|ls[1..]| - 1] == ls[..|ls| - 1][1..];
      SucceedingLoadersSnoc(ls[1..], docs);
    }
  }

  /**
   * Loaded is (number of loaders returning true) times the number of
   * documents, and each loader that returns false or raises leaves exactly
   * one error.
   */
  lemma {:induction false} LoadCounts(ls: seq<Loader>, docs: seq<BudgetDocument>)
    ensures LoadAll(ls, docs).loaded == SucceedingLoaders(ls, docs) * |docs|
    ensures |LoadAll(ls, docs).errors| == |ls| - SucceedingLoaders(ls, docs)
    decreases |ls|
  {
    if ls != [] {
      var init := ls[..|ls| - 1];
      LoadCounts(init, docs);
      SucceedingLoadersSnoc(ls, docs);
      var n := SucceedingLoaders(init, docs);
      var prev := LoadAll(init, docs);
      if ls[|ls| - 1].load(docs) == Returned(true) {
        assert LoadAll(ls, docs) == Loading(prev.loaded + |docs|, prev.errors);
        MulSucc(n, |docs|);
      } else {
        assert LoadAll(ls, docs).loaded == prev.loaded && |LoadAll(ls, docs).errors| == |prev.errors| + 1;
      }
    }
  }

  /** The one nonlinear step of `LoadCounts`, kept apart so that its proof stays small. */
  lemma MulSucc(n: nat, m: nat)
    ensures (n + 1) * m == n * m + m
  {
  }

  /* ---------------- The whole run ---------------- */

  /** What `run` returns for the given stages. */
  function RunSpec(cs: seq<Collector>, vs: seq<Validator>, ls: seq<Loader>, opts: Options): (summary: RunSummary)
  {
    var c := Collect(cs, opts);
    var v := ValidateAll(vs, c.documents);
    var l := LoadAll(ls, v.accepted);
    RunSummary(|c.documents|, 0, |v.accepted|, l.loaded, c.errors + v.errors + l.errors)
  }

  /**
   * The counters of a run: parsers are never run, validated never exceeds
   * collected, collected is the successful collectors' total, loaded is the
   * successful loaders times validated, and there is one error per failed
   * collector and per failed loader on top of the validation errors.
   */
  lemma RunAccounting(cs: seq<Collector>, vs: seq<Validator>, ls: seq<Loader>, opts: Options)
    ensures var s := RunSpec(cs, vs, ls, opts);
      && s.parsed == 0
      && s.validated <= s.collected
      && s.collected == SucceededTotal(cs, opts)
      && s.loaded == SucceedingLoaders(ls, ValidateAll(vs, Collect(cs, opts).documents).accepted) * s.validated
      && |s.errors| == FailedCount(cs, opts) + |ValidateAll(vs, Collect(cs, opts).documents).errors|
                       + (|ls| - SucceedingLoaders(ls, ValidateAll(vs, Collect(cs, opts).documents).accepted))
  {
    var c := Collect(cs, opts);
    var v := ValidateAll(vs, c.documents);
    CollectCounts(cs, opts);
    ValidatedMembership(vs, c.documents);
    LoadCounts(ls, v.accepted);
  }

  /** The pipeline: ordered stage lists, appended to by the `add_*` methods. */
  class ETLPipeline {
    var collectors: seq<Collector>
    var parsers: seq<Parser>
    var validators: seq<Validator>
    var loaders: seq<Loader>

    constructor ()
      ensures collectors == [] && parsers == [] && validators == [] && loaders == []
    {
      collectors, parsers, validators, loaders := [], [], [], [];
    }

    method AddCollector(c: Collector)
      modifies this
      ensures collectors == old(collectors) + [c]
      ensures parsers == old(parsers) && validators == old(validators) && loaders == old(loaders)
    {
      collectors := collectors + [c];
    }

    method AddParser(p: Parser)
      modifies this
      ensures parsers == old(parsers) + [p]
      ensures collectors == old(collectors) && validators == old(validators) && loaders == old(loaders)
    {
      parsers := parsers + [p];
    }

    method AddValidator(v: Validator)
      modifies this
      ensures validators == old(validators) + [v]
      ensures collectors == old(collectors) && parsers == old(parsers) && loaders == old(loaders)
    {
      validators := validators + [v];
    }

    method AddLoader(l: Loader)
      modifies this
      ensures loaders == old(loaders) + [l]
      ensures collectors == old(collectors) && parsers == old(parsers) && validators == old(validators)
    {
      loaders := loaders + [l];
    }

    /** The collection loop of `run`: every collector, a raise recorded as one error. */
    method CollectPhase(options: Options) returns (documents: seq<BudgetDocument>, errors: seq<string>)
      ensures Collection(documents, errors) == Collect(collectors, options)
    {
      documents, errors := [], [];
      var i := 0;
      while i < |collectors|
        invariant 0 <= i <= |collectors|
        invariant Collect(collectors[..i], options) == Collection(documents, errors)
      {
        var collector := collectors[i];
        assert collectors[..i + 1][..i] == collectors[..i];
        match collector.collect(options) {
          case Returned(found) =>
            documents := documents + found;
          case Raised(e) =>
            errors := errors + [CollectionError(collector, e)];
        }
        i := i + 1;
      }
      assert collectors[..i] == collectors;
    }

    /** The validator loop for one document, broken off at the first validator that does not accept it. */
    method CheckDocument(document: BudgetDocument) returns (isValid: bool, errors: seq<string>)
      ensures Verdict(isValid, errors) == Check(validators, document)
    {
      isValid, errors := true, [];
      var j := 0;
      while j < |validators|
        invariant 0 <= j <= |validators|
        invariant errors == []
        invariant Check(validators, document) == Check(validators[j..], document)
      {
        var validator := validators[j];
        assert validators[j..][0] == validator && validators[j..][1..] == validators[j + 1..];
        match validator.validate(document) {
          case Returned(ok) =>
            if !ok {
              isValid := false;
              match validator.validationErrors(document) {
                case Returned(errs) => errors := errs;
                case Raised(e) => errors := [ValidationError(validator, e)];
              }
              return;
            }
          case Raised(e) =>
            errors := [ValidationError(validator, e)];
            isValid := false;
            return;
        }
        j := j + 1;
      }
    }

    /** The validation loop of `run`: the documents that pass, in order, and what the others report. */
    method ValidatePhase(documents: seq<BudgetDocument>) returns (validated: seq<BudgetDocument>, errors: seq<string>)
      ensures Validation(validated, errors) == ValidateAll(validators, documents)
    {
      validated, errors := [], [];
      var n := 0;
      while n < |documents|
        invariant 0 <= n <= |documents|
        invariant ValidateAll(validators, documents[..n]) == Validation(validated, errors)
      {
        var document := documents[n];
        assert documents[..n + 1][..n] == documents[..n];
        var isValid, reported := CheckDocument(document);
        errors := errors + reported;
        if isValid {
          validated := validated + [document];
        }
        n := n + 1;
      }
      assert documents[..n] == documents;
    }

    /** The loading loop of `run`: every loader gets the validated documents. */
    method LoadPhase(documents: seq<BudgetDocument>) returns (loaded: nat, errors: seq<string>)
      ensures Loading(loaded, errors) == LoadAll(loaders, documents)
    {
      loaded, errors := 0, [];
      var k := 0;
      while k < |loaders|
        invariant 0 <= k <= |loaders|
        invariant LoadAll(loaders[..k], documents) == Loading(loaded, errors)
      {
        var loader := loaders[k];
        assert loaders[..k + 1][..k] == loaders[..k];
        match loader.load(documents) {
          case Returned(ok) =>
            if ok {
              loaded := loaded + |documents|;
            } else {
              errors := errors + [LoadingError(loader)];
            }
          case Raised(e) =>
            errors := errors + [LoadingError(loader) + ": " + e];
        }
        k := k + 1;
      }
      assert loaders[..k] == loaders;
    }

    /**
     * `run`: collection, validation and loading, each stage failure caught
     * and recorded. It always returns a summary.
     */
    method Run(options: Options) returns (results: RunSummary)
      ensures results == RunSpec(collectors, validators, loaders, options)
    {
      var allDocuments, collectionErrors := CollectPhase(options);
      var validatedDocuments, validationErrors := ValidatePhase(allDocuments);
      var loaded, loadingErrors := LoadPhase(validatedDocuments);
      results := RunSummary(|allDocuments|, 0, |validatedDocuments|, loaded,
                            collectionErrors + validationErrors + loadingErrors);
    }
  }
}
