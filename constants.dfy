/** Caller identities and the caller-to-knowledge-base table. */
module Constants {

  /** The integration a request comes from (a named Go string type). */
  datatype Caller = Caller(name: string) {
    function String(): (s: string)
      ensures Caller(s) == this
    {
      name
    }
  }

  const CallerZltx: Caller := Caller("zltx")
  const CallerHyt: Caller := Caller("hyt")

  /** The identifier of a knowledge base (a named Go string type). */
  datatype KnowledgeId = KnowledgeId(id: string) {
    function String(): (s: string)
      ensures KnowledgeId(s) == this
    {
      id
    }
  }

  const KnowledgeIdZltx: KnowledgeId := KnowledgeId("kb-00000001")

  /** Which knowledge base serves which caller. */
  const CallerKnowledgeIdMap: map<Caller, KnowledgeId> := map[CallerZltx := KnowledgeIdZltx]

  /** The caller's knowledge base, or the empty identifier for a caller without one. */
  function GetKnowledgeId(caller: Caller): (k: KnowledgeId)
    ensures caller in CallerKnowledgeIdMap ==> k == CallerKnowledgeIdMap[caller]
    ensures caller !in CallerKnowledgeIdMap ==> k.String() == ""
    ensures k.String() == "" || k in CallerKnowledgeIdMap.Values
  {
    if caller !in CallerKnowledgeIdMap then KnowledgeId("") else CallerKnowledgeIdMap[caller]
  }

  lemma ZltxKnowledgeBase()
    ensures GetKnowledgeId(CallerZltx).String() == "kb-00000001"
  {
  }

  lemma HytHasNoKnowledgeBase()
    ensures GetKnowledgeId(CallerHyt).String() == ""
  {
    assert CallerHyt != CallerZltx;
  }
}
