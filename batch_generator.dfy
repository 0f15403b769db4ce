/** The training-pair batch generator: an indexable sequence of batches, each
    made of a slice of the known (question, professional) pairs and of
    randomly drawn negative pairs, with a label column. The dictionaries the
    generator loads when it is built are taken as constructor parameters. */
module Generator {
  import opened Recency
  import opened Content
  import opened Batching

  /** A (question id, professional id) pair. */
  datatype Pair = Pair(que: string, pro: string)

  /** The dictionaries whose plain `[key]` lookup can miss. */
  datatype Table =
    | QueLastAnswerDate
    | QueFeature
    | ProFeature
    | AnsDateAdded
    | ProLastAnswerDates
    | ProIndustry

  datatype Error =
    | KeyError(table: Table)   // a `dict[key]` lookup of a missing key
    | IndexError               // `random.choice` on an empty candidate list
    | ValueError               // `np.vstack` of an empty list of rows
    | RetriesExhausted         // the draw budget of one negative ran out

  datatype Result<T> = Ok(value: T) | Err(error: Error)

  /** The per-pair lists built before the embeddings are added: pairs, last
      dates, question features and professional features, index-aligned. */
  datatype Columns = Columns(pairs: seq<Pair>, lastDates: seq<int>, queFeatures: seq<Vec>, proFeatures: seq<Vec>)

  /** A negative pair that was accepted, with its recorded last date. */
  datatype Negative = Negative(pair: Pair, lastDate: int)

  /** One row of the question-side matrix, columns in `hstack` order. */
  datatype QueRow = QueRow(features: Vec, tagContent: Vec)

  /** One row of the professional-side matrix, columns in `hstack` order. */
  datatype ProRow = ProRow(features: Vec, lastDate: int, industryContent: Vec)

  /** The two input matrices, as lists of rows, and the label column. */
  datatype Batch = Batch(queRows: seq<QueRow>, proRows: seq<ProRow>, labels: seq<int>)

  class BatchGenerator {
    const posSize: nat
    const negSize: nat
    const ques: seq<string>
    const pros: seq<string>
    const queProSet: set<Pair>
    var queProList: seq<Pair>
    const queTag: map<string, seq<string>>
    const proInd: map<string, string>
    const tagEmb: map<string, Vec>
    const indEmb: map<string, Vec>
    const queFeatureDict: map<string, Vec>
    const proFeatureDict: map<string, Vec>
    const proLastAnswerDatesDict: map<string, seq<int>>
    const ansDateAddedDict: map<string, int>
    const queLastAnswerDateDict: map<string, int>

    /** What the loaded data guarantees: a positive batch size, sorted answer
        timestamps per professional, embeddings of the zero vector's length. */
    ghost predicate TablesValid()
    {
      posSize > 0 &&
      (forall p :: p in proLastAnswerDatesDict ==> Sorted(proLastAnswerDatesDict[p])) &&
      TableOfDim(tagEmb, EmbDim) && TableOfDim(indEmb, EmbDim)
    }

    /** The pair list enumerates the pair set: each pair exactly once. */
    ghost predicate Valid()
      reads this
    {
      TablesValid() && multiset(queProList) == multiset(queProSet)
    }

    constructor (posSize: nat, negSize: nat, ques: seq<string>, pros: seq<string>,
                 queProSet: set<Pair>, queTag: map<string, seq<string>>,
                 proInd: map<string, string>, tagEmb: map<string, Vec>, indEmb: map<string, Vec>,
                 queFeatureDict: map<string, Vec>, proFeatureDict: map<string, Vec>,
                 proLastAnswerDatesDict: map<string, seq<int>>,
                 ansDateAddedDict: map<string, int>, queLastAnswerDateDict: map<string, int>)
      requires posSize > 0
      requires forall p :: p in proLastAnswerDatesDict ==> Sorted(proLastAnswerDatesDict[p])
      requires TableOfDim(tagEmb, EmbDim) && TableOfDim(indEmb, EmbDim)
      ensures Valid()
      ensures this.posSize == posSize && this.negSize == negSize
      ensures this.ques == ques && this.pros == pros && this.queProSet == queProSet
      ensures this.queTag == queTag && this.proInd == proInd
      ensures this.tagEmb == tagEmb && this.indEmb == indEmb
      ensures this.queFeatureDict == queFeatureDict && this.proFeatureDict == proFeatureDict
      ensures this.proLastAnswerDatesDict == proLastAnswerDatesDict
      ensures this.ansDateAddedDict == ansDateAddedDict
      ensures this.queLastAnswerDateDict == queLastAnswerDateDict
    {
      this.posSize, this.negSize := posSize, negSize;
      this.ques, this.pros, this.queProSet := ques, pros, queProSet;
      this.queTag, this.proInd := queTag, proInd;
      this.tagEmb, this.indEmb := tagEmb, indEmb;
      this.queFeatureDict, this.proFeatureDict := queFeatureDict, proFeatureDict;
      this.proLastAnswerDatesDict := proLastAnswerDatesDict;
      this.ansDateAddedDict := ansDateAddedDict;
      this.queLastAnswerDateDict := queLastAnswerDateDict;
      // list(que_pro_set): take the set's elements one at a time
      var rest := queProSet;
      var list: seq<Pair> := [];
      while rest != {}
        invariant rest <= queProSet
        invariant multiset(list) + multiset(rest) == multiset(queProSet)
        decreases rest
      {
        var x :| x in rest;
        assert multiset(rest) == multiset(rest - {x}) + multiset{x};
        list := list + [x];
        rest := rest - {x};
      }
      queProList := list;
    }

    /** `__len__`: the number of batches of an epoch. */
    function Len(): (n: nat)
      reads this
      requires Valid()
      ensures n * posSize <= |queProList| < n * posSize + posSize
      ensures n == BatchCount(|queProList|, posSize)
    {
      BatchCount(|queProList|, posSize)
    }

    /** The question's tags (none when it has no entry), averaged. */
    function QueContent(que: string): (v: Vec)
      requires TablesValid()
      ensures |v| == EmbDim
    {
      TagContent(if que in queTag then queTag[que] else [], tagEmb, EmbDim)
    }

    /** The embedding of the professional's industry, or zeros. */
    function ProContent(pro: string): (v: Vec)
      requires TablesValid() && pro in proInd
      ensures |v| == EmbDim
    {
      EmbeddingOrZero(indEmb, proInd[pro], EmbDim)
    }

    /** `__negative_que_last_answer_date`: both lookups are hard lookups, the
        question's first; then the latest answer of the professional strictly
        before the question's answer date. */
    function NegativeQueLastAnswerDate(que: string, pro: string): (r: Result<LastDate>)
      requires TablesValid()
      ensures que !in ansDateAddedDict ==> r == Err(KeyError(AnsDateAdded))
      ensures que in ansDateAddedDict && pro !in proLastAnswerDatesDict ==>
                r == Err(KeyError(ProLastAnswerDates))
      ensures que in ansDateAddedDict && pro in proLastAnswerDatesDict ==>
                r == Ok(LastAnswerBefore(proLastAnswerDatesDict[pro], ansDateAddedDict[que]))
      ensures r.Ok? && !r.value.valid ==>
                r.value.date == ansDateAddedDict[que] &&
                forall d :: d in proLastAnswerDatesDict[pro] ==> d >= ansDateAddedDict[que]
      ensures r.Ok? && r.value.valid ==>
                r.value.date < ansDateAddedDict[que] && r.value.date in proLastAnswerDatesDict[pro] &&
                forall d :: d in proLastAnswerDatesDict[pro] && d < ansDateAddedDict[que] ==> d <= r.value.date
    {
      if que !in ansDateAddedDict then Err(KeyError(AnsDateAdded))
      else if pro !in proLastAnswerDatesDict then Err(KeyError(ProLastAnswerDates))
      else Ok(LastAnswerBefore(proLastAnswerDatesDict[pro], ansDateAddedDict[que]))
    }

    /** The three lookups made for a positive pair all succeed. */
    predicate PositiveKnown(p: Pair)
    {
      p.que in queLastAnswerDateDict && p.que in queFeatureDict && p.pro in proFeatureDict
    }

    /** The table of the first of those lookups that fails. */
    function PositiveMissing(p: Pair): Table
      requires !PositiveKnown(p)
    {
      if p.que !in queLastAnswerDateDict then QueLastAnswerDate
      else if p.que !in queFeatureDict then QueFeature
      else ProFeature
    }

    /** `pairs[k]` is the first pair whose lookups fail. */
    ghost predicate FirstUnknownPositive(pairs: seq<Pair>, k: int)
    {
      0 <= k < |pairs| && !PositiveKnown(pairs[k]) &&
      forall i :: 0 <= i < k ==> PositiveKnown(pairs[i])
    }

    /** The positive lists: one entry per pair, the last date being the
        question's own last answer date. */
    ghost predicate PositiveColumns(c: Columns, pairs: seq<Pair>)
    {
      c.pairs == pairs &&
      |c.lastDates| == |pairs| && |c.queFeatures| == |pairs| && |c.proFeatures| == |pairs| &&
      forall i :: 0 <= i < |pairs| ==>
        PositiveKnown(pairs[i]) &&
        c.lastDates[i] == queLastAnswerDateDict[pairs[i].que] &&
        c.queFeatures[i] == queFeatureDict[pairs[i].que] &&
        c.proFeatures[i] == proFeatureDict[pairs[i].pro]
    }

    /** A pair the sampling loop may accept with the given last date: drawn
        from the candidate lists, not a known pair, and with a valid recency
        strictly before the question's answer date. */
    ghost predicate AcceptedNegative(p: Pair, lastDate: int)
      requires TablesValid()
    {
      p.que in ques && p.pro in pros && p !in queProSet &&
      NegativeQueLastAnswerDate(p.que, p.pro) == Ok(LastDate(lastDate, true)) &&
      lastDate < ansDateAddedDict[p.que]
    }

    /** The negative lists: one entry per accepted pair, index-aligned. */
    ghost predicate NegativeColumns(c: Columns)
      requires TablesValid()
    {
      |c.lastDates| == |c.pairs| && |c.queFeatures| == |c.pairs| && |c.proFeatures| == |c.pairs| &&
      forall i :: 0 <= i < |c.pairs| ==>
        AcceptedNegative(c.pairs[i], c.lastDates[i]) &&
        c.pairs[i].que in queFeatureDict && c.pairs[i].pro in proFeatureDict &&
        c.queFeatures[i] == queFeatureDict[c.pairs[i].que] &&
        c.proFeatures[i] == proFeatureDict[c.pairs[i].pro]
    }

    /** The positive loop of `__getitem__`. */
    method CollectPositives(pairs: seq<Pair>) returns (r: Result<Columns>)
      ensures r.Ok? <==> forall i :: 0 <= i < |pairs| ==> PositiveKnown(pairs[i])
      ensures r.Ok? ==> PositiveColumns(r.value, pairs)
      ensures r.Err? ==> exists k :: FirstUnknownPositive(pairs, k) &&
                                     r.error == KeyError(PositiveMissing(pairs[k]))
    {
      var dates: seq<int> := [];
      var queFeatures: seq<Vec> := [];
      var proFeatures: seq<Vec> := [];
      for k := 0 to |pairs|
        invariant |dates| == k && |queFeatures| == k && |proFeatures| == k
        invariant forall i :: 0 <= i < k ==>
          PositiveKnown(pairs[i]) &&
          dates[i] == queLastAnswerDateDict[pairs[i].que] &&
          queFeatures[i] == queFeatureDict[pairs[i].que] &&
          proFeatures[i] == proFeatureDict[pairs[i].pro]
      {
        var p := pairs[k];
        if !PositiveKnown(p) {
          assert FirstUnknownPositive(pairs, k);
          return Err(KeyError(PositiveMissing(p)));
        }
        dates := dates + [queLastAnswerDateDict[p.que]];
        queFeatures := queFeatures + [queFeatureDict[p.que]];
        proFeatures := proFeatures + [proFeatureDict[p.pro]];
      }
      return Ok(Columns(pairs, dates, queFeatures, proFeatures));
    }

    /** Every candidate question and professional has an entry in the tables
        the negative loop looks it up in. */
    ghost predicate CandidatesKnown()
    {
      (forall q :: q in ques ==> q in ansDateAddedDict && q in queFeatureDict) &&
      (forall p :: p in pros ==> p in proLastAnswerDatesDict && p in proFeatureDict)
    }

    /** A drawn candidate pair the sampling loop turns down: its recency
        lookup succeeds, but it is a known pair or has no valid recency. */
    ghost predicate Rejected(p: Pair)
      requires TablesValid()
    {
      p.que in ques && p.pro in pros && NegativeQueLastAnswerDate(p.que, p.pro).Ok? &&
      (p in queProSet || !NegativeQueLastAnswerDate(p.que, p.pro).value.valid)
    }

    /** Every pair of candidates would be accepted on its first draw. */
    ghost predicate AllCandidatePairsAcceptable()
      requires TablesValid()
    {
      forall q, p :: q in ques && p in pros ==>
        q in ansDateAddedDict && p in proLastAnswerDatesDict && Pair(q, p) !in queProSet &&
        NegativeQueLastAnswerDate(q, p).Ok? && NegativeQueLastAnswerDate(q, p).value.valid
    }

    /** The `while True` loop that draws one negative pair, with at most
        `budget` draws. `tried` names the draws that were turned down. */
    method DrawNegative(budget: nat) returns (r: Result<Negative>, ghost tried: seq<Pair>)
      requires TablesValid()
      ensures r.Ok? ==> AcceptedNegative(r.value.pair, r.value.lastDate)
      ensures budget == 0 ==> r == Err(RetriesExhausted)
      ensures budget > 0 && (|ques| == 0 || |pros| == 0) ==> r == Err(IndexError)
      ensures r == Err(IndexError) ==> |ques| == 0 || |pros| == 0
      ensures r.Ok? ==> budget > 0
      ensures r.Err? ==> r.error in {RetriesExhausted, IndexError, KeyError(AnsDateAdded), KeyError(ProLastAnswerDates)}
      ensures r == Err(KeyError(AnsDateAdded)) ==> exists q :: q in ques && q !in ansDateAddedDict
      ensures r == Err(KeyError(ProLastAnswerDates)) ==> exists p :: p in pros && p !in proLastAnswerDatesDict
      ensures budget > 0 && |ques| > 0 && |pros| > 0 &&
              (forall q :: q in ques ==> q in ansDateAddedDict) &&
              (forall p :: p in pros ==> p in proLastAnswerDatesDict) ==>
                r.Ok? || r == Err(RetriesExhausted)
      ensures r == Err(RetriesExhausted) ==>
                |tried| == budget && forall i :: 0 <= i < |tried| ==> Rejected(tried[i])
      ensures budget > 0 && |ques| > 0 && |pros| > 0 && AllCandidatePairsAcceptable() ==> r.Ok?
    {
      tried := [];
      var left: nat := budget;
      while true
        invariant left <= budget
        invariant left < budget ==> |ques| > 0 && |pros| > 0
        invariant |tried| == budget - left
        invariant forall i :: 0 <= i < |tried| ==> Rejected(tried[i])
        invariant AllCandidatePairsAcceptable() ==> |tried| == 0
        decreases left
      {
        if left == 0 {
          return Err(RetriesExhausted), tried;
        }
        left := left - 1;
        if |ques| == 0 || |pros| == 0 {
          return Err(IndexError), tried;
        }
        assert ques[0] in ques && pros[0] in pros;
        var que :| que in ques;
        var pro :| pro in pros;
        var found := NegativeQueLastAnswerDate(que, pro);
        if found.Err? {
          return Err(found.error), tried;
        }
        if Pair(que, pro) !in queProSet && found.value.valid {
          return Ok(Negative(Pair(que, pro), found.value.date)), tried;
        }
        tried := tried + [Pair(que, pro)];
      }
    }

    /** The negative loop of `__getitem__`: `negSize` accepted pairs, each
        drawn with at most `maxDraws` draws. `tried` names the turned-down
        draws of the last negative drawn. */
    method SampleNegatives(maxDraws: nat) returns (r: Result<Columns>, ghost tried: seq<Pair>)
      requires TablesValid()
      ensures r.Ok? ==> |r.value.pairs| == negSize && NegativeColumns(r.value)
      ensures negSize == 0 ==> r == Ok(Columns([], [], [], []))
      ensures negSize > 0 && maxDraws > 0 && (|ques| == 0 || |pros| == 0) ==> r == Err(IndexError)
      ensures negSize > 0 && maxDraws == 0 ==> r == Err(RetriesExhausted)
      ensures r.Err? ==> r.error in {RetriesExhausted, IndexError, KeyError(AnsDateAdded),
                                     KeyError(ProLastAnswerDates), KeyError(QueFeature), KeyError(ProFeature)}
      ensures r == Err(IndexError) ==> |ques| == 0 || |pros| == 0
      ensures r == Err(KeyError(AnsDateAdded)) ==> exists q :: q in ques && q !in ansDateAddedDict
      ensures r == Err(KeyError(ProLastAnswerDates)) ==> exists p :: p in pros && p !in proLastAnswerDatesDict
      ensures r == Err(KeyError(QueFeature)) ==> exists q :: q in ques && q !in queFeatureDict
      ensures r == Err(KeyError(ProFeature)) ==> exists p :: p in pros && p !in proFeatureDict
      ensures maxDraws > 0 && |ques| > 0 && |pros| > 0 && CandidatesKnown() ==>
                r.Ok? || r == Err(RetriesExhausted)
      ensures r == Err(RetriesExhausted) ==>
                |tried| == maxDraws && forall i :: 0 <= i < |tried| ==> Rejected(tried[i])
      ensures maxDraws > 0 && |ques| > 0 && |pros| > 0 && CandidatesKnown() &&
              AllCandidatePairsAcceptable() ==>
                r.Ok?
    {
      tried := [];
      var c := Columns([], [], [], []);
      for i := 0 to negSize
        invariant |c.pairs| == i && NegativeColumns(c)
        invariant i > 0 ==> maxDraws > 0 && |ques| > 0 && |pros| > 0
      {
        var drawn;
        drawn, tried := DrawNegative(maxDraws);
        if drawn.Err? {
          return Err(drawn.error), tried;
        }
        var Negative(pair, lastDate) := drawn.value;
        assert pair.que in ques && pair.pro in pros;
        if pair.que !in queFeatureDict {
          return Err(KeyError(QueFeature)), tried;
        }
        if pair.pro !in proFeatureDict {
          return Err(KeyError(ProFeature)), tried;
        }
        c := Columns(c.pairs + [pair], c.lastDates + [lastDate],
                     c.queFeatures + [queFeatureDict[pair.que]],
                     c.proFeatures + [proFeatureDict[pair.pro]]);
      }
      return Ok(c), tried;
    }

    /** `__convert`: the tag content and the industry content of each pair.
        The industry lookup is a hard lookup; stacking no rows fails. */
    method Convert(pairs: seq<Pair>) returns (r: Result<(seq<Vec>, seq<Vec>)>)
      requires TablesValid()
      ensures r.Ok? <==> |pairs| > 0 && forall i :: 0 <= i < |pairs| ==> pairs[i].pro in proInd
      ensures (exists i :: 0 <= i < |pairs| && pairs[i].pro !in proInd) ==> r == Err(KeyError(ProIndustry))
      ensures |pairs| == 0 ==> r == Err(ValueError)
      ensures r.Ok? ==> |r.value.0| == |pairs| && |r.value.1| == |pairs|
      ensures r.Ok? ==> forall i :: 0 <= i < |pairs| ==>
                pairs[i].pro in proInd &&
                r.value.0[i] == QueContent(pairs[i].que) &&
                r.value.1[i] == ProContent(pairs[i].pro)
    {
      var xQue: seq<Vec> := [];
      var xPro: seq<Vec> := [];
      for k := 0 to |pairs|
        invariant |xQue| == k && |xPro| == k
        invariant forall i :: 0 <= i < k ==>
          pairs[i].pro in proInd &&
          xQue[i] == QueContent(pairs[i].que) &&
          xPro[i] == ProContent(pairs[i].pro)
      {
        var Pair(que, pro) := pairs[k];
        var tags := if que in queTag then queTag[que] else [];
        var tmp: seq<Vec> := [];
        for t := 0 to |tags|
          invariant |tmp| == t
          invariant forall i :: 0 <= i < t ==> tmp[i] == EmbeddingOrZero(tagEmb, tags[i], EmbDim)
        {
          tmp := tmp + [EmbeddingOrZero(tagEmb, tags[t], EmbDim)];
        }
        if |tmp| == 0 {
          tmp := tmp + [Zeros(EmbDim)];
        }
        assert tmp == TagRows(tags, tagEmb, EmbDim);
        xQue := xQue + [Mean(tmp, EmbDim)];
        if pro !in proInd {
          return Err(KeyError(ProIndustry));
        }
        xPro := xPro + [EmbeddingOrZero(indEmb, proInd[pro], EmbDim)];
      }
      if |pairs| == 0 {
        return Err(ValueError);
      }
      return Ok((xQue, xPro));
    }

    /** The question-side row of a pair. */
    function QueRowOf(p: Pair): QueRow
      requires TablesValid() && p.que in queFeatureDict
    {
      QueRow(queFeatureDict[p.que], QueContent(p.que))
    }

    /** The professional-side row of a pair with the given last date. */
    function ProRowOf(p: Pair, lastDate: int): ProRow
      requires TablesValid() && p.pro in proFeatureDict && p.pro in proInd
    {
      ProRow(proFeatureDict[p.pro], lastDate, ProContent(p.pro))
    }

    /** What a successful `__getitem__` returns for the positive pairs `pos`
        and the accepted negative pairs `negs`: positive rows first, then
        negative rows, and `posSize` ones then `negSize` zeros as labels. */
    ghost predicate BatchOf(b: Batch, pos: seq<Pair>, negs: seq<Pair>)
      requires TablesValid()
    {
      |pos| > 0 && negSize > 0 && |negs| == negSize &&
      b.labels == Labels(posSize, negSize) &&
      |b.queRows| == |pos| + negSize && |b.proRows| == |pos| + negSize &&
      (forall i :: 0 <= i < |pos| ==>
        PositiveKnown(pos[i]) && pos[i].pro in proInd &&
        b.queRows[i] == QueRowOf(pos[i]) &&
        b.proRows[i] == ProRowOf(pos[i], queLastAnswerDateDict[pos[i].que])) &&
      (forall j :: 0 <= j < negSize ==>
        AcceptedNegative(negs[j], b.proRows[|pos| + j].lastDate) &&
        negs[j].que in queFeatureDict && negs[j].pro in proFeatureDict && negs[j].pro in proInd &&
        b.queRows[|pos| + j] == QueRowOf(negs[j]) &&
        b.proRows[|pos| + j] == ProRowOf(negs[j], b.proRows[|pos| + j].lastDate))
    }

    /** The `hstack`/`vstack` step of `__getitem__`: rows built from the
        positive and negative lists and their contents. */
    method Assemble(pos: seq<Pair>, pc: Columns, nc: Columns,
                    posContent: (seq<Vec>, seq<Vec>), negContent: (seq<Vec>, seq<Vec>))
      returns (b: Batch)
      requires TablesValid()
      requires PositiveColumns(pc, pos) && |pos| > 0
      requires |nc.pairs| == negSize > 0 && NegativeColumns(nc)
      requires |posContent.0| == |pos| && |posContent.1| == |pos|
      requires forall i :: 0 <= i < |pos| ==>
                 pos[i].pro in proInd &&
                 posContent.0[i] == QueContent(pos[i].que) &&
                 posContent.1[i] == ProContent(pos[i].pro)
      requires |negContent.0| == negSize && |negContent.1| == negSize
      requires forall j :: 0 <= j < negSize ==>
                 nc.pairs[j].pro in proInd &&
                 negContent.0[j] == QueContent(nc.pairs[j].que) &&
                 negContent.1[j] == ProContent(nc.pairs[j].pro)
      ensures BatchOf(b, pos, nc.pairs)
    {
      var (posQue, posPro) := posContent;
      var (negQue, negPro) := negContent;
      var queRows := seq(|pos|, i requires 0 <= i < |pos| => QueRow(pc.queFeatures[i], posQue[i]))
                   + seq(negSize, j requires 0 <= j < negSize => QueRow(nc.queFeatures[j], negQue[j]));
      var proRows := seq(|pos|, i requires 0 <= i < |pos| => ProRow(pc.proFeatures[i], pc.lastDates[i], posPro[i]))
                   + seq(negSize, j requires 0 <= j < negSize => ProRow(nc.proFeatures[j], nc.lastDates[j], negPro[j]));
      b := Batch(queRows, proRows, Labels(posSize, negSize));
      forall i | 0 <= i < |pos|
        ensures b.queRows[i] == QueRowOf(pos[i])
        ensures b.proRows[i] == ProRowOf(pos[i], queLastAnswerDateDict[pos[i].que])
      {
        assert queRows[i] == QueRow(pc.queFeatures[i], posQue[i]);
        assert proRows[i] == ProRow(pc.proFeatures[i], pc.lastDates[i], posPro[i]);
      }
      forall j | 0 <= j < negSize
        ensures b.queRows[|pos| + j] == QueRowOf(nc.pairs[j])
        ensures b.proRows[|pos| + j] == ProRowOf(nc.pairs[j], nc.lastDates[j])
      {
        assert queRows[|pos| + j] == QueRow(nc.queFeatures[j], negQue[j]);
        assert proRows[|pos| + j] == ProRow(nc.proFeatures[j], nc.lastDates[j], negPro[j]);
      }
    }

    /** `__getitem__`: batch `index`, each negative drawn with at most
        `maxDraws` draws. `negs` names the negative pairs drawn, `tried` the
        turned-down draws of the last negative drawn. */
    method GetItem(index: nat, maxDraws: nat) returns (r: Result<Batch>, ghost negs: seq<Pair>, ghost tried: seq<Pair>)
      requires Valid()
      ensures var pos := BatchSlice(queProList, posSize, index);
              !(forall i :: 0 <= i < |pos| ==> PositiveKnown(pos[i])) ==>
                exists k :: FirstUnknownPositive(pos, k) && r == Err(KeyError(PositiveMissing(pos[k])))
      ensures r.Ok? ==> BatchOf(r.value, BatchSlice(queProList, posSize, index), negs)
      ensures r.Ok? && index < Len() ==>
                |r.value.queRows| == |r.value.proRows| == |r.value.labels| == posSize + negSize
      ensures r.Ok? ==> forall i, j :: 0 <= i < |BatchSlice(queProList, posSize, index)| && 0 <= j < |negs| ==>
                BatchSlice(queProList, posSize, index)[i] != negs[j]
      ensures r.Err? ==> r.error in {RetriesExhausted, IndexError, ValueError,
                                     KeyError(QueLastAnswerDate), KeyError(QueFeature), KeyError(ProFeature),
                                     KeyError(AnsDateAdded), KeyError(ProLastAnswerDates), KeyError(ProIndustry)}
      ensures r == Err(IndexError) ==> |ques| == 0 || |pros| == 0
      ensures r == Err(RetriesExhausted) ==> negSize > 0
      ensures var pos := BatchSlice(queProList, posSize, index);
              r == Err(KeyError(QueLastAnswerDate)) ==> exists i :: 0 <= i < |pos| && !PositiveKnown(pos[i])
      ensures r == Err(KeyError(AnsDateAdded)) ==> negSize > 0 && exists q :: q in ques && q !in ansDateAddedDict
      ensures r == Err(KeyError(ProLastAnswerDates)) ==>
                negSize > 0 && exists p :: p in pros && p !in proLastAnswerDatesDict
      ensures var pos := BatchSlice(queProList, posSize, index);
              r == Err(KeyError(QueFeature)) ==>
                (exists i :: 0 <= i < |pos| && !PositiveKnown(pos[i])) ||
                (exists q :: q in ques && q !in queFeatureDict)
      ensures var pos := BatchSlice(queProList, posSize, index);
              r == Err(KeyError(ProFeature)) ==>
                (exists i :: 0 <= i < |pos| && !PositiveKnown(pos[i])) ||
                (exists p :: p in pros && p !in proFeatureDict)
      ensures r == Err(ValueError) ==> |BatchSlice(queProList, posSize, index)| == 0 || negSize == 0
      ensures var pos := BatchSlice(queProList, posSize, index);
              negSize == 0 && (forall i :: 0 <= i < |pos| ==> PositiveKnown(pos[i]) && pos[i].pro in proInd) ==>
                r == Err(ValueError)
      ensures r == Err(KeyError(ProIndustry)) ==>
                (exists i :: 0 <= i < |BatchSlice(queProList, posSize, index)| &&
                             BatchSlice(queProList, posSize, index)[i].pro !in proInd) ||
                (exists j :: 0 <= j < |negs| && negs[j].pro in pros && negs[j].pro !in proInd)
      ensures var pos := BatchSlice(queProList, posSize, index);
              |pos| > 0 && negSize > 0 && maxDraws > 0 && |ques| > 0 && |pros| > 0 && CandidatesKnown() &&
              (forall i :: 0 <= i < |pos| ==> PositiveKnown(pos[i]) && pos[i].pro in proInd) &&
              (forall p :: p in pros ==> p in proInd) ==>
                r.Ok? || r == Err(RetriesExhausted)
      ensures r == Err(RetriesExhausted) ==>
                |tried| == maxDraws && forall i :: 0 <= i < |tried| ==> Rejected(tried[i])
      ensures var pos := BatchSlice(queProList, posSize, index);
              |pos| > 0 && negSize > 0 && maxDraws > 0 && |ques| > 0 && |pros| > 0 && CandidatesKnown() &&
              AllCandidatePairsAcceptable() &&
              (forall i :: 0 <= i < |pos| ==> PositiveKnown(pos[i]) && pos[i].pro in proInd) &&
              (forall p :: p in pros ==> p in proInd) ==>
                r.Ok?
    {
      negs, tried := [], [];
      var pos := BatchSlice(queProList, posSize, index);
      var positives := CollectPositives(pos);
      if positives.Err? {
        return Err(positives.error), negs, tried;
      }
      var negatives;
      negatives, tried := SampleNegatives(maxDraws);
      if negatives.Err? {
        return Err(negatives.error), negs, tried;
      }
      var posContent := Convert(pos);
      if posContent.Err? {
        return Err(posContent.error), negs, tried;
      }
      negs := negatives.value.pairs;
      var negContent := Convert(negatives.value.pairs);
      if negContent.Err? {
        return Err(negContent.error), negs, tried;
      }
      var b := Assemble(pos, positives.value, negatives.value, posContent.value, negContent.value);
      r := Ok(b);
      EnumerationHasNoDuplicates(queProList, queProSet);
      forall i, j | 0 <= i < |pos| && 0 <= j < |negs|
        ensures pos[i] != negs[j]
      {
        assert pos[i] in queProList;
        assert negs[j] !in queProSet;
      }
      if index < Len() {
        BatchSliceInRange(queProList, posSize, index);
      }
    }

    /** `on_epoch_end`: `random.sample(list, len(list))`, i.e. the list is
        replaced by an arbitrary permutation of itself. */
    method OnEpochEnd()
      requires Valid()
      modifies this`queProList
      ensures Valid()
      ensures multiset(queProList) == multiset(old(queProList))
      ensures |queProList| == |old(queProList)|
      ensures Len() == old(Len())
    {
      var pool := queProList;
      var sample: seq<Pair> := [];
      while pool != []
        invariant multiset(sample) + multiset(pool) == multiset(queProList)
        decreases |pool|
      {
        var j :| 0 <= j < |pool|;
        assert pool == pool[..j] + [pool[j]] + pool[j + 1..];
        sample := sample + [pool[j]];
        pool := pool[..j] + pool[j + 1..];
      }
      queProList := sample;
    }
  }
}
