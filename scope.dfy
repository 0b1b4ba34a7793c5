/** scope.go: a `Scope` is a copy of its bucket's state block with the scope
    name filled in. */
module Scopes {
  import opened StateBlocks

  datatype Scope = Scope(sb: StateBlock)

  /** What `Scope.Collection` hands to `newCollection`: the scope's state block
      and the collection name (`newCollection` is not part of this model). */
  datatype CollectionRef = CollectionRef(scopeBlock: StateBlock, collectionName: string)

  /** `newScope`: a copy of the bucket's block whose scope name is `scopeName`;
      every other field is the bucket's. */
  function NewScope(bucketBlock: StateBlock, scopeName: string): (s: Scope)
    ensures s.sb.scopeName == scopeName
    ensures s.sb.bucketName == bucketBlock.bucketName
    ensures s.sb.useMutationTokens == bucketBlock.useMutationTokens
    ensures InheritsSettings(s.sb, bucketBlock)
    ensures forall other: string :: s.sb.(scopeName := other) == bucketBlock.(scopeName := other)
  {
    var scope := Scope(bucketBlock);
    scope.(sb := scope.sb.(scopeName := scopeName))
  }

  /** `Scope.Name`. */
  function Name(s: Scope): (name: string)
    ensures name == s.sb.scopeName
  {
    s.sb.scopeName
  }

  /** `Scope.clone`: a copy with an equal state block. */
  function Clone(s: Scope): (r: Scope)
    ensures r.sb == s.sb
  {
    var copy := s;
    copy
  }

  /** `Scope.Collection`. */
  function Collection(s: Scope, collectionName: string): (c: CollectionRef)
    ensures c.collectionName == collectionName
    ensures c.scopeBlock.scopeName == Name(s)
    ensures c.scopeBlock == s.sb
  {
    CollectionRef(s.sb, collectionName)
  }

  /** `Scope.stateBlock`. */
  function StateBlockOf(s: Scope): (sb: StateBlock)
    ensures sb == s.sb && sb.scopeName == Name(s)
  {
    s.sb
  }

  /** `Name` returns the name given to `newScope`, and `stateBlock` returns the
      bucket's block with that name in it. */
  lemma NewScopeNameAndBlock(bucketBlock: StateBlock, scopeName: string)
    ensures Name(NewScope(bucketBlock, scopeName)) == scopeName
    ensures StateBlockOf(NewScope(bucketBlock, scopeName)) == bucketBlock.(scopeName := scopeName)
  {
  }

  /** A clone answers every accessor as the original does. */
  lemma CloneIsIndistinguishable(s: Scope, collectionName: string)
    ensures Name(Clone(s)) == Name(s)
    ensures StateBlockOf(Clone(s)) == StateBlockOf(s)
    ensures Collection(Clone(s), collectionName) == Collection(s, collectionName)
  {
  }
}
