/**
 * The project's two exception classes (exceptions.py): each keeps its two
 * constructor arguments as fields and passes one fixed-template message to
 * the base class, so that its `args` is that one message.
 * The arguments are formatted with `str()` in the source; here they are
 * given as the already formatted strings.
 */
module Exceptions {
  import opened Python

  const WrongTypePrefix := "Полученный класс "
  const WrongTypeInfix := " не соответствует ожидаемому "
  const WrongKeyPrefix := "Полученного ключа "
  const WrongKeyInfix := " нет в словаре "

  /** An instance of `WrongType(cur_type, need_type)`, a subclass of TypeError. */
  datatype WrongType = WrongType(curType: string, needType: string)
  {
    function Message(): (m: string)
      ensures |m| == |WrongTypePrefix| + |curType| + |WrongTypeInfix| + |needType|
    {
      WrongTypePrefix + curType + WrongTypeInfix + needType
    }

    /** The exception as the main loop sees it: class tag and `args`. */
    function AsError(): (e: PyError)
      ensures IsSubclass(e.cls, TypeErr) && !IsSubclass(e.cls, KeyErr)
      ensures e.args == [Message()]
    {
      PyError(WrongTypeErr, [Message()])
    }
  }

  /** An instance of `WrongKey(cur_key, cur_dict)`, a subclass of KeyError. */
  datatype WrongKey = WrongKey(curKey: string, curDict: string)
  {
    function Message(): (m: string)
      ensures |m| == |WrongKeyPrefix| + |curKey| + |WrongKeyInfix| + |curDict|
    {
      WrongKeyPrefix + curKey + WrongKeyInfix + curDict
    }

    function AsError(): (e: PyError)
      ensures IsSubclass(e.cls, KeyErr) && !IsSubclass(e.cls, TypeErr)
      ensures e.args == [Message()]
    {
      PyError(WrongKeyErr, [Message()])
    }
  }

  /** The fields sit at fixed offsets of the message: given the length of the
      first argument, both arguments can be read back from it. */
  lemma WrongTypeFieldsInMessage(w: WrongType)
    ensures var m, p, n := w.Message(), |WrongTypePrefix|, |w.curType|;
      && m[..p] == WrongTypePrefix
      && m[p..p + n] == w.curType
      && m[p + n..p + n + |WrongTypeInfix|] == WrongTypeInfix
      && m[p + n + |WrongTypeInfix|..] == w.needType
  {
    var m, p, n := w.Message(), |WrongTypePrefix|, |w.curType|;
    assert m == WrongTypePrefix + w.curType + WrongTypeInfix + w.needType;
  }

  lemma WrongKeyFieldsInMessage(w: WrongKey)
    ensures var m, p, n := w.Message(), |WrongKeyPrefix|, |w.curKey|;
      && m[..p] == WrongKeyPrefix
      && m[p..p + n] == w.curKey
      && m[p + n..p + n + |WrongKeyInfix|] == WrongKeyInfix
      && m[p + n + |WrongKeyInfix|..] == w.curDict
  {
    var m, p, n := w.Message(), |WrongKeyPrefix|, |w.curKey|;
    assert m == WrongKeyPrefix + w.curKey + WrongKeyInfix + w.curDict;
  }

  /** Two instances have equal `args` exactly when their messages are equal,
      and equal `args` with a first argument of the same length means the
      instances hold the same fields. */
  lemma WrongTypeArgsDetermineFields(a: WrongType, b: WrongType)
    requires a.AsError().args == b.AsError().args
    requires |a.curType| == |b.curType|
    ensures a == b
  {
    assert a.Message() == b.Message();
    WrongTypeFieldsInMessage(a);
    WrongTypeFieldsInMessage(b);
  }

  lemma WrongKeyArgsDetermineFields(a: WrongKey, b: WrongKey)
    requires a.AsError().args == b.AsError().args
    requires |a.curKey| == |b.curKey|
    ensures a == b
  {
    assert a.Message() == b.Message();
    WrongKeyFieldsInMessage(a);
    WrongKeyFieldsInMessage(b);
  }

  /** Without that length the fields are not determined: two different
      instances can carry the same `args`, and the main loop, which compares
      only `args`, would take them for the same failure. */
  lemma WrongTypeArgsAmbiguous()
    ensures var a, b := WrongType("A" + WrongTypeInfix + "B", "C"), WrongType("A", "B" + WrongTypeInfix + "C");
      a != b && a.AsError().args == b.AsError().args
  {
    var a, b := WrongType("A" + WrongTypeInfix + "B", "C"), WrongType("A", "B" + WrongTypeInfix + "C");
    assert a.curType != b.curType by { assert |a.curType| != |b.curType|; }
    assert a.Message() == b.Message();
  }

  /** The same holds for WrongKey when the key contains the infix. */
  lemma WrongKeyArgsAmbiguous()
    ensures var a, b := WrongKey("A" + WrongKeyInfix + "B", "C"), WrongKey("A", "B" + WrongKeyInfix + "C");
      a != b && a.AsError().args == b.AsError().args
  {
    var a, b := WrongKey("A" + WrongKeyInfix + "B", "C"), WrongKey("A", "B" + WrongKeyInfix + "C");
    assert a.curKey != b.curKey by { assert |a.curKey| != |b.curKey|; }
    assert a.Message() == b.Message();
  }

  /** `str()` of a WrongType is its message; `str()` of a WrongKey is the
      message's `repr`, in quotes, because KeyError formats its argument so. */
  lemma ExceptionTexts(t: WrongType, k: WrongKey)
    ensures ExcStr(t.AsError()) == t.Message()
    ensures ExcStr(k.AsError()) == StrRepr(k.Message())
  {
  }
}
