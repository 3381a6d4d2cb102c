/** consensus/entity.go: quorum-certificate checks and the block hash. */
module Entity {
  import opened Types
  import opened Quorum

  const TWO64: int := 0x1_0000_0000_0000_0000
  const TWO63: int := 0x8000_0000_0000_0000

  /** Go's conversion of a signed 64-bit integer to uint64. */
  function Uint64(x: int): nat {
    x % TWO64
  }

  // ---------------------------------------------------------------------------
  // Quorum certificates

  /** The known replicas whose own signature on the certified hash is in `qc`. */
  function VerifiedSigners(env: Env, qc: QuorumCert): set<ReplicaId> {
    set id | id in qc.signs && id in env.replicas && SignatureVerifies(id, qc.signs[id].signature, qc.blockHash)
  }

  /** What VerifyQuorumCert accepts. The second comparison is unsigned, as in the program. */
  predicate QcVerifies(env: Env, qc: QuorumCert) {
    && |qc.signs| >= GetQuorumSize(env.metadata)
    && |VerifiedSigners(env, qc)| >= Uint64(GetQuorumSize(env.metadata))
  }

  method VerifyQuorumCert(env: Env, qc: Option<QuorumCert>) returns (ok: bool)
    ensures ok <==> qc.Some? && QcVerifies(env, qc.value)
  {
    if qc.None? || |qc.value.signs| < GetQuorumSize(env.metadata) {
      return false;
    }
    var signs, numVerified := qc.value.signs, 0;
    var pending := signs.Keys;
    ghost var counted := {};
    while pending != {}
      invariant pending <= signs.Keys
      invariant counted == VerifiedSigners(env, qc.value) - pending
      invariant numVerified == |counted|
      decreases |pending|
    {
      var id := Pick(pending);
      pending := pending - {id};
      if id in env.replicas && SignatureVerifies(id, signs[id].signature, qc.value.blockHash) {
        numVerified := numVerified + 1;
        counted := counted + {id};
      }
    }
    assert counted == VerifiedSigners(env, qc.value);
    return numVerified >= Uint64(GetQuorumSize(env.metadata));
  }

  /** For a sensible configuration a certificate verifies exactly when enough distinct known
      replicas signed it: the length check and the unsigned comparison change nothing. */
  lemma QcVerifiesIffEnoughSigners(env: Env, qc: QuorumCert)
    requires 0 <= GetQuorumSize(env.metadata) < TWO63
    ensures QcVerifies(env, qc) <==> |VerifiedSigners(env, qc)| >= env.metadata.n - env.metadata.f
  {
    SubsetCardinality(VerifiedSigners(env, qc), qc.signs.Keys);
  }

  /** With more faults allowed than replicas the unsigned comparison rejects every certificate
      that a machine can hold. */
  lemma NegativeQuorumNeverVerifies(env: Env, qc: QuorumCert)
    requires -TWO63 <= GetQuorumSize(env.metadata) < 0 && |qc.signs| < TWO63
    ensures !QcVerifies(env, qc)
  {
    SubsetCardinality(VerifiedSigners(env, qc), qc.signs.Keys);
  }

  predicate VerifyIdentity(env: Env, id: ReplicaId, signature: Signature, digest: Bytes) {
    id in env.replicas && SignatureVerifies(id, signature, digest)
  }

  // ---------------------------------------------------------------------------
  // Block hash

  function LittleEndian(x: nat, len: nat): (r: Bytes)
    ensures |r| == len
    decreases len
  {
    if len == 0 then [] else [(x % 256) as byte] + LittleEndian(x / 256, len - 1)
  }

  function Pow256(len: nat): (r: nat)
    ensures r > 0
  {
    if len == 0 then 1 else 256 * Pow256(len - 1)
  }

  lemma DivUnique(x: int, d: int, q: int, r: int)
    requires d > 0 && 0 <= r < d && x == d * q + r
    ensures x / d == q && x % d == r
  {
    var q', r' := x / d, x % d;
    NoMultiple(d, q - q', r' - r) by {
      assert d * q == d * q' + (r' - r);
      assert d * (q - q') == d * q - d * q';
    }
  }

  lemma NoMultiple(d: int, k: int, m: int)
    requires d > 0 && d * k == m && -d < m < d
    ensures k == 0 && m == 0
  {
    if k >= 1 {
      assert false;
    } else if k <= -1 {
      assert false;
    }
  }

  /** Cutting a number to 256 * m values leaves its last byte, and cuts the rest to m values. */
  lemma CutAndShift(x: int, m: nat)
    requires m > 0
    ensures (x % (256 * m)) % 256 == x % 256 && (x % (256 * m)) / 256 == (x / 256) % m
  {
    var q, r := x / (256 * m), x % (256 * m);
    var a, b := r / 256, r % 256;
    assert x == 256 * (m * q + a) + b;
    DivUnique(x, 256, m * q + a, b);
    DivUnique(m * q + a, m, q, a);
  }

  lemma DivTwice(x: int, d: nat)
    requires d > 0
    ensures (x / 256) / d == x / (256 * d)
  {
    var q, r := x / (256 * d), x % (256 * d);
    var a, b := r / 256, r % 256;
    assert x == 256 * (d * q + a) + b;
    DivUnique(x, 256, d * q + a, b);
    DivUnique(d * q + a, d, q, a);
  }

  /** Byte i of a number cut to `len` bytes is its i-th digit to the base 256, the lowest first. Negative numbers
      are in two's complement. */
  lemma {:induction false} ByteAt(x: int, len: nat, i: nat)
    requires i < len
    ensures LittleEndian(x % Pow256(len), len)[i] as int == (x / Pow256(i)) % 256
    decreases len
  {
    CutAndShift(x, Pow256(len - 1));
    if i > 0 {
      ByteAt(x / 256, len - 1, i - 1);
      DivTwice(x, Pow256(i - 1));
    }
  }

  /** The bytes that are hashed. The justify certificate is not among them. */
  function Preimage(b: Block): Bytes {
    b.parentHash + LittleEndian(Uint64(b.height), 8) + b.cmds
  }

  function GetBlockHash(digest: Bytes -> Hash, b: Block): Hash {
    digest(Preimage(b))
  }

  /** The parent's hash, eight bytes of the height with the lowest first, and the commands, byte by byte. */
  predicate Laid(b: Block, bytes: Bytes) {
    var p := |b.parentHash|;
    && |bytes| == p + 8 + |b.cmds| && bytes[..p] == b.parentHash && bytes[p + 8..] == b.cmds
    && (forall i :: 0 <= i < 8 ==> bytes[p + i] as int == (b.height / Pow256(i)) % 256)
  }

  lemma PreimageIsLaid(b: Block)
    ensures Laid(b, Preimage(b))
  {
    var p, height := |b.parentHash|, LittleEndian(Uint64(b.height), 8);
    EightBytesHold64Bits();
    forall i | 0 <= i < 8
      ensures Preimage(b)[p + i] as int == (b.height / Pow256(i)) % 256
    {
      ByteAt(b.height, 8, i);
      assert Preimage(b)[p + i] == height[i];
    }
  }

  lemma LaidOnce(b: Block, x: Bytes, y: Bytes)
    requires Laid(b, x) && Laid(b, y)
    ensures x == y
  {
    var p := |b.parentHash|;
    var u, v := x[p..p + 8], y[p..p + 8];
    forall j | 0 <= j < 8
      ensures u[j] == v[j]
    {
      assert x[p + j] as int == (b.height / Pow256(j)) % 256 == y[p + j] as int;
    }
    assert x == x[..p] + u + x[p + 8..] && y == y[..p] + v + y[p + 8..];
  }

  /** The hash of a block is the digest of exactly these bytes. */
  lemma HashOfLayout(digest: Bytes -> Hash, b: Block, bytes: Bytes)
    ensures Laid(b, bytes) <==> bytes == Preimage(b)
    ensures Laid(b, bytes) ==> GetBlockHash(digest, b) == digest(bytes)
  {
    PreimageIsLaid(b);
    if Laid(b, bytes) { LaidOnce(b, bytes, Preimage(b)); }
  }

  method ComputeBlockHash(digest: Bytes -> Hash, b: Block) returns (hash: Hash)
    ensures hash == GetBlockHash(digest, b)
    ensures forall bytes :: Laid(b, bytes) ==> hash == digest(bytes)
  {
    forall bytes | Laid(b, bytes)
      ensures GetBlockHash(digest, b) == digest(bytes)
    {
      HashOfLayout(digest, b, bytes);
    }
    var toHash: Bytes := [];
    toHash := toHash + b.parentHash;
    assert toHash == b.parentHash;
    var height := LittleEndian(Uint64(b.height), 8);
    toHash := toHash + height;
    toHash := toHash + b.cmds;
    hash := digest(toHash);
  }

  function Genesis(digest: Bytes -> Hash): Block {
    var bare := Block([], [], 0, 0, 0, None, QuorumCert(-1, [], map[]));
    bare.(selfQc := QuorumCert(-1, GetBlockHash(digest, bare), map[]))
  }

  function GenesisHash(digest: Bytes -> Hash): Hash {
    Genesis(digest).selfQc.blockHash
  }

  /** The block sits on a 32-byte parent hash and its height is a 64-bit integer. */
  predicate Ordinary(b: Block) {
    |b.parentHash| == 32 && -TWO63 <= b.height < TWO63
  }

  /** The hashed part of genesis: no parent, height 0, no commands. */
  predicate IsGenesis(b: Block) {
    b.parentHash == [] && b.height == 0 && b.cmds == []
  }

  lemma {:induction false} LittleEndianInjective(x: nat, y: nat, len: nat)
    requires LittleEndian(x, len) == LittleEndian(y, len)
    requires x < Pow256(len) && y < Pow256(len)
    ensures x == y
    decreases len
  {
    if len > 0 {
      var p, q := LittleEndian(x, len), LittleEndian(y, len);
      assert p[0] == q[0] && p[1..] == LittleEndian(x / 256, len - 1) && q[1..] == LittleEndian(y / 256, len - 1);
      LittleEndianInjective(x / 256, y / 256, len - 1);
    }
  }

  lemma EightBytesHold64Bits()
    ensures Pow256(8) == TWO64
  {
    assert Pow256(2) == 0x1_0000;
    assert Pow256(4) == 0x1_0000_0000;
    assert Pow256(6) == 0x1_0000_0000_0000;
  }

  lemma Uint64Injective(x: int, y: int)
    requires -TWO63 <= x < TWO63 && -TWO63 <= y < TWO63 && Uint64(x) == Uint64(y)
    ensures x == y
  {
  }

  lemma HeightBytesInjective(x: int, y: int)
    requires -TWO63 <= x < TWO63 && -TWO63 <= y < TWO63
    requires LittleEndian(Uint64(x), 8) == LittleEndian(Uint64(y), 8)
    ensures x == y
  {
    EightBytesHold64Bits();
    LittleEndianInjective(Uint64(x), Uint64(y), 8);
    Uint64Injective(x, y);
  }

  /** The hashed bytes determine parent, height and commands of an ordinary block... */
  lemma PreimageDeterminesContent(b: Block, c: Block)
    requires Ordinary(b) && Ordinary(c) && Preimage(b) == Preimage(c)
    ensures b.parentHash == c.parentHash && b.height == c.height && b.cmds == c.cmds
  {
    var p, q := Preimage(b), Preimage(c);
    assert p[..32] == b.parentHash && q[..32] == c.parentHash;
    assert p[32..40] == LittleEndian(Uint64(b.height), 8) && q[32..40] == LittleEndian(Uint64(c.height), 8);
    assert p[40..] == b.cmds && q[40..] == c.cmds;
    HeightBytesInjective(b.height, c.height);
  }

  /** ...and are never the bytes of genesis. */
  lemma OrdinaryIsNotGenesis(b: Block, g: Block)
    requires Ordinary(b) && IsGenesis(g)
    ensures Preimage(b) != Preimage(g)
  {
    assert |Preimage(b)| >= 40 && |Preimage(g)| == 8;
  }

  /** The block stored under `h` hashes to `h`, and is genesis or has its parent in the store. */
  predicate Filed(digest: Bytes -> Hash, st: map<Hash, Block>, h: Hash) {
    && h in st
    && GetBlockHash(digest, st[h]) == h
    && (IsGenesis(st[h]) || (Ordinary(st[h]) && st[h].parentHash in st))
  }

  predicate HashStore(digest: Bytes -> Hash, st: map<Hash, Block>) {
    forall h {:trigger Filed(digest, st, h)} :: h in st ==> Filed(digest, st, h)
  }

  predicate NoCollision(digest: Bytes -> Hash, st: map<Hash, Block>, st': map<Hash, Block>) {
    forall h, h' :: h in st && h' in st' && GetBlockHash(digest, st[h]) == GetBlockHash(digest, st'[h']) ==>
      Preimage(st[h]) == Preimage(st'[h'])
  }

  /** Heights and commands met on the way from `h` towards genesis, `k` links deep. */
  function History(st: map<Hash, Block>, h: Hash, k: nat): seq<(int, Bytes)>
    decreases k
  {
    if h !in st then []
    else [(st[h].height, st[h].cmds)] +
         (if k == 0 || IsGenesis(st[h]) then [] else History(st, st[h].parentHash, k - 1))
  }

  /** Blocks filed under `h` in both stores agree, and so do the places of their parents. */
  predicate AgreeAt(st: map<Hash, Block>, st': map<Hash, Block>, h: Hash) {
    && h in st && h in st'
    && st[h].parentHash == st'[h].parentHash && st[h].height == st'[h].height && st[h].cmds == st'[h].cmds
    && (!IsGenesis(st[h]) ==> st[h].parentHash in st && st'[h].parentHash in st')
  }

  lemma {:induction false} AgreementGivesHistory(st: map<Hash, Block>, st': map<Hash, Block>, h: Hash, k: nat)
    requires forall x {:trigger AgreeAt(st, st', x)} :: x in st && x in st' ==> AgreeAt(st, st', x)
    requires h in st && h in st'
    ensures History(st, h, k) == History(st', h, k)
    decreases k
  {
    assert AgreeAt(st, st', h);
    if k > 0 && !IsGenesis(st[h]) {
      AgreementGivesHistory(st, st', st[h].parentHash, k - 1);
    }
  }

  /** Without collisions, one hash means one history, in whichever store it is looked up. */
  lemma HashDeterminesHistory(
      digest: Bytes -> Hash, st: map<Hash, Block>, st': map<Hash, Block>, h: Hash, k: nat)
    requires HashStore(digest, st) && HashStore(digest, st') && NoCollision(digest, st, st')
    requires h in st && h in st'
    ensures History(st, h, k) == History(st', h, k)
  {
    forall x | x in st && x in st'
      ensures AgreeAt(st, st', x)
    {
      OneHashOneContent(digest, st, st', x);
    }
    AgreementGivesHistory(st, st', h, k);
  }

  lemma OneHashOneContent(digest: Bytes -> Hash, st: map<Hash, Block>, st': map<Hash, Block>, h: Hash)
    requires HashStore(digest, st) && HashStore(digest, st') && NoCollision(digest, st, st')
    requires h in st && h in st'
    ensures st[h].parentHash == st'[h].parentHash && st[h].height == st'[h].height && st[h].cmds == st'[h].cmds
    ensures !IsGenesis(st[h]) ==> st[h].parentHash in st && st'[h].parentHash in st'
  {
    assert Filed(digest, st, h) && Filed(digest, st', h);
    SameContent(st[h], st'[h]);
  }

  /** Equal hashed bytes mean equal content, for ordinary blocks and genesis alike. */
  lemma SameContent(b: Block, c: Block)
    requires (IsGenesis(b) || Ordinary(b)) && (IsGenesis(c) || Ordinary(c)) && Preimage(b) == Preimage(c)
    ensures b.parentHash == c.parentHash && b.height == c.height && b.cmds == c.cmds
  {
    if IsGenesis(b) {
      if Ordinary(c) { OrdinaryIsNotGenesis(c, b); }
    } else if IsGenesis(c) {
      OrdinaryIsNotGenesis(b, c);
    } else {
      PreimageDeterminesContent(b, c);
    }
  }
}
