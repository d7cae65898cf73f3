/** The SDK's pagination bag: a stack of page states that is carried from call to call
    inside the page token. */
module Pagination {
  import opened Wrappers

  datatype PageState = PageState(token: string, resourceTypeID: string, resourceID: string)

  /** A page token: empty, one that does not decode, or an encoded bag, whose current
      state is the top of the stack. */
  datatype Token = NoToken | Corrupt | Saved(below: seq<PageState>, top: PageState)

  /** The stack a token stands for; the last element is the current state. */
  function StackOf(token: Token): seq<PageState> {
    if token.Saved? then token.below + [token.top] else []
  }

  /** The token that stands for a stack. */
  function TokenOf(stack: seq<PageState>): Token {
    if stack == [] then NoToken else Saved(stack[..|stack| - 1], stack[|stack| - 1])
  }

  /** `NextToken`: the current state moves to the next link, or is popped when there is none.
      An empty bag gets a state that carries the link. */
  function Advanced(stack: seq<PageState>, link: string): seq<PageState> {
    if stack == [] then [PageState(link, "", "")]
    else if link == "" then stack[..|stack| - 1]
    else stack[..|stack| - 1] + [stack[|stack| - 1].(token := link)]
  }

  class Bag {
    var states: seq<PageState>
    var currentState: Option<PageState>

    ghost predicate Valid()
      reads this
    {
      currentState.None? ==> states == []
    }

    ghost function Stack(): seq<PageState>
      reads this
    {
      if currentState.Some? then states + [currentState.value] else []
    }

    constructor ()
      ensures Valid() && Stack() == []
    {
      states, currentState := [], None;
    }

    method Unmarshal(token: Token) returns (err: Option<Error>)
      requires Valid()
      modifies this
      ensures Valid()
      ensures err == if token.Corrupt? then Some(CorruptToken) else None
      ensures Stack() == if token.Corrupt? then old(Stack()) else StackOf(token)
    {
      match token {
        case Corrupt => return Some(CorruptToken);
        case NoToken => states, currentState := [], None;
        case Saved(below, top) => states, currentState := below, Some(top);
      }
      return None;
    }

    method Current() returns (state: Option<PageState>)
      requires Valid()
      ensures state == if Stack() == [] then None else Some(Stack()[|Stack()| - 1])
    {
      state := currentState;
    }

    method Push(state: PageState)
      requires Valid()
      modifies this
      ensures Valid() && Stack() == old(Stack()) + [state]
    {
      if currentState.Some? {
        states := states + [currentState.value];
      }
      currentState := Some(state);
    }

    method Pop() returns (state: Option<PageState>)
      requires Valid()
      modifies this
      ensures Valid()
      ensures old(Stack()) == [] ==> state == None && Stack() == []
      ensures old(Stack()) != [] ==> state.Some? && Stack() + [state.value] == old(Stack())
    {
      state := currentState;
      if state.Some? {
        if |states| > 0 {
          currentState := Some(states[|states| - 1]);
          states := states[..|states| - 1];
        } else {
          currentState := None;
        }
      }
    }

    method Marshal() returns (token: Token)
      requires Valid()
      ensures token == TokenOf(Stack())
    {
      token := if currentState.None? then NoToken else Saved(states, currentState.value);
    }

    method NextToken(pageToken: string) returns (token: Token)
      requires Valid()
      modifies this
      ensures Valid() && Stack() == Advanced(old(Stack()), pageToken) && token == TokenOf(Stack())
    {
      if currentState.None? {
        currentState := Some(PageState(pageToken, "", ""));
        token := Marshal();
        return;
      }
      var st := Pop();
      if pageToken != "" {
        Push(st.value.(token := pageToken));
      }
      token := Marshal();
    }
  }

  /** The stack `parsePageToken` opens: the token's, or one state for the resource. */
  function Parsed(token: Token, resourceType: string, resource: string): seq<PageState> {
    if StackOf(token) != [] then StackOf(token) else [PageState("", resourceType, resource)]
  }

  /** `parsePageToken`, on a bag made for the call. */
  method ParsePageToken(b: Bag, token: Token, resourceType: string, resource: string) returns (err: Option<Error>)
    requires b.Valid() && b.Stack() == []
    modifies b
    ensures b.Valid()
    ensures err == if token.Corrupt? then Some(CorruptToken) else None
    ensures err.None? ==> b.Stack() == Parsed(token, resourceType, resource)
  {
    err := b.Unmarshal(token);
    if err.Some? {
      return;
    }
    var current := b.Current();
    if current.None? {
      b.Push(PageState("", resourceType, resource));
    }
  }

  /** The stack after a page, and the one a call of `List` opens. */
  lemma StackAfter(below: seq<PageState>, top: PageState, link: string, resourceType: string, resource: string)
    ensures Advanced(below + [top], link) ==
            if link == "" then below else below + [PageState(link, top.resourceTypeID, top.resourceID)]
    ensures Advanced([], link) == [PageState(link, "", "")]
    ensures Parsed(Saved(below, top), resourceType, resource) == below + [top]
    ensures Parsed(NoToken, resourceType, resource) == [PageState("", resourceType, resource)]
    ensures TokenOf(below + [top]) == Saved(below, top) && TokenOf([]) == NoToken
  {
    var stack := below + [top];
    assert stack[..|stack| - 1] == below && stack[|stack| - 1] == top;
  }

  /** A stack survives the trip through its token. */
  lemma TokenRoundTrip(stack: seq<PageState>)
    ensures StackOf(TokenOf(stack)) == stack
  {
  }
}
