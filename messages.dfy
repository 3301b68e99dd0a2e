/**
 * The request-message editor of the initialize route: a list of message
 * objects owned by the parent, edited field by field in place, extended by
 * a draft (role and content), and shortened by index. Each operation hands
 * its new list to the parent's `onChange`; the result of an operation is
 * that list, or nothing when `onChange` is not called.
 */
module MessagesEditor {
  import opened Wrappers
  import opened JsValue
  import opened JsString

  /** One `{role, content}` element. The editor writes into these objects,
      so they are objects, shared between the parent's list and its copies. */
  class Message {
    var role: string
    var content: string

    constructor (role: string, content: string)
      ensures this.role == role && this.content == content
    {
      this.role := role;
      this.content := content;
    }
  }

  /** The `key` argument of `updateMessage`: the two fields the UI edits. */
  datatype MessageField = Role | Content

  /** The list as values: each element's role and content. */
  function Contents(messages: seq<Message>): (r: seq<(string, string)>)
    reads messages
    ensures |r| == |messages|
    ensures forall i :: 0 <= i < |messages| ==> r[i] == (messages[i].role, messages[i].content)
  {
    seq(|messages|, i reads messages requires 0 <= i < |messages| => (messages[i].role, messages[i].content))
  }

  /** No element object appears twice in the list. */
  predicate DistinctObjects(messages: seq<Message>) {
    forall i, j :: 0 <= i < j < |messages| ==> messages[i] != messages[j]
  }

  /** An element with one field replaced. */
  function WithField(m: (string, string), key: MessageField, value: string): (string, string) {
    match key
    case Role => (value, m.1)
    case Content => (m.0, value)
  }

  /** `messages.filter((_, i) => i !== index)` */
  function Without<T>(s: seq<T>, index: int): (r: seq<T>)
    ensures 0 <= index < |s| ==> r == s[..index] + s[index + 1..]
    ensures !(0 <= index < |s|) ==> r == s
    decreases |s|
  {
    if s == [] then []
    else
      var last := |s| - 1;
      Without(s[..last], index) + (if last == index then [] else [s[last]])
  }

  /** Removing one element leaves a list one shorter that, together with
      the removed element, holds exactly the original elements. */
  lemma RemoveDropsExactlyOne<T>(s: seq<T>, index: int)
    requires 0 <= index < |s|
    ensures |Without(s, index)| == |s| - 1
    ensures multiset(Without(s, index)) + multiset{s[index]} == multiset(s)
  {
    SplitAround(s, index);
  }

  lemma SplitAround<T>(s: seq<T>, index: int)
    requires 0 <= index < |s|
    ensures multiset(s[..index] + s[index + 1..]) + multiset{s[index]} == multiset(s)
  {
    assert s == s[..index] + ([s[index]] + s[index + 1..]);
  }

  /** The elements before the removed one keep their positions, the ones
      after it move down by one. */
  lemma RemoveKeepsOrder<T>(s: seq<T>, index: int, j: int)
    requires 0 <= index < |s| && 0 <= j < |s| - 1
    ensures Without(s, index)[j] == if j < index then s[j] else s[j + 1]
  {
    var front, back := s[..index], s[index + 1..];
    var r := Without(s, index);
    assert r == front + back;
    if j < index {
      assert r[j] == front[j];
    } else {
      assert r[j] == back[j - index];
    }
  }

  class Editor {
    /** The draft's role, initially "user". */
    var newRole: string
    /** The draft's content, initially empty. */
    var newContent: string

    constructor ()
      ensures newRole == "user" && newContent == ""
    {
      newRole := "user";
      newContent := "";
    }

    /** The draft's role selector. */
    method SetNewRole(value: string)
      modifies this
      ensures newRole == value && newContent == old(newContent)
    {
      newRole := value;
    }

    /** The draft's text area. */
    method SetNewContent(value: string)
      modifies this
      ensures newContent == value && newRole == old(newRole)
    {
      newContent := value;
    }

    /** `updateMessage(index, key, value)`: the shallow copy holds the same
        element objects, so the write lands in the object the parent's list
        holds too. Out of range, `updatedMessages[index]` is `undefined` and
        the write throws before `onChange` is called. */
    method UpdateMessage(messages: seq<Message>, index: int, key: MessageField, value: string)
      returns (passed: Completion<seq<Message>>)
      modifies if 0 <= index < |messages| then {messages[index]} else {}
      ensures !(0 <= index < |messages|) <==> passed.TypeError?
      ensures 0 <= index < |messages| ==>
                && passed == Normal(messages)
                && (messages[index].role, messages[index].content) ==
                   WithField(old((messages[index].role, messages[index].content)), key, value)
      ensures 0 <= index < |messages| && DistinctObjects(messages) ==>
                Contents(messages) == old(Contents(messages))[index := WithField(old(Contents(messages))[index], key, value)]
    {
      if !(0 <= index < |messages|) {
        return TypeError;
      }
      var updatedMessages := messages;
      if key == Role {
        updatedMessages[index].role := value;
      } else {
        updatedMessages[index].content := value;
      }
      passed := Normal(updatedMessages);
    }

    /** `addMessage()`: a blank draft (empty after trimming) changes
        nothing; otherwise a new element with the draft's role and trimmed
        content is appended and the draft's content is cleared. */
    method AddMessage(messages: seq<Message>) returns (passed: Option<seq<Message>>)
      modifies this
      ensures Trim(old(newContent)) == "" ==>
                passed == None && newContent == old(newContent) && newRole == old(newRole)
      ensures Trim(old(newContent)) != "" ==>
                && passed.Some?
                && |passed.value| == |messages| + 1
                && passed.value[..|messages|] == messages
                && fresh(passed.value[|messages|])
                && passed.value[|messages|].role == old(newRole)
                && passed.value[|messages|].content == Trim(old(newContent))
                && newContent == "" && newRole == old(newRole)
    {
      var trimmed := Trim(newContent);
      if trimmed == "" {
        return None;
      }
      var added := new Message(newRole, trimmed);
      passed := Some(messages + [added]);
      newContent := "";
    }

    /** `removeMessage(index)`: in range, the list passed on is one shorter,
        lacks exactly the element at `index` and keeps the others in order;
        out of range, it holds the same elements. */
    method RemoveMessage(messages: seq<Message>, index: int) returns (passed: seq<Message>)
      ensures !(0 <= index < |messages|) ==> passed == messages
      ensures 0 <= index < |messages| ==>
                && |passed| == |messages| - 1
                && multiset(passed) + multiset{messages[index]} == multiset(messages)
                && (forall j :: 0 <= j < index ==> passed[j] == messages[j])
                && (forall j :: index <= j < |passed| ==> passed[j] == messages[j + 1])
    {
      passed := Without(messages, index);
      if 0 <= index < |messages| {
        RemoveDropsExactlyOne(messages, index);
        forall j | 0 <= j < |passed|
          ensures passed[j] == if j < index then messages[j] else messages[j + 1]
        {
          RemoveKeepsOrder(messages, index, j);
        }
      }
    }
  }

  /** A draft is added exactly when it holds a character that is not
      whitespace, and then without its surrounding whitespace. */
  lemma AddedContentIsTrimmedDraft(draft: string)
    ensures Trim(draft) == "" <==> AllWhitespace(draft)
    ensures Trim(draft) != "" ==> !IsWhitespace(Trim(draft)[0]) && !IsWhitespace(Trim(draft)[|Trim(draft)| - 1])
  {
    TrimEmptyIffBlank(draft);
    TrimIsInfix(draft);
  }
}
