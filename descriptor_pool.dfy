// src/render/vulkan/descriptor_pool.cpp: a descriptor pool that remembers
// one descriptor-set layout and how many sets to allocate from it. That
// number is the number of pool-size entries it was given, not the sum of
// their descriptor counts.

module DescriptorPools {
  import opened Common

  datatype DescriptorType = UniformBufferDescriptor | CombinedImageSampler | StorageBufferDescriptor

  /** vk::DescriptorPoolSize */
  datatype PoolSize = PoolSize(descriptorType: DescriptorType, descriptorCount: u32)

  /** A vk::DescriptorSetLayout handle. */
  type Layout = nat

  /** vk::DescriptorPoolCreateInfo as the constructor fills it. */
  datatype PoolCreateInfo = PoolCreateInfo(freeDescriptorSet: bool, maxSets: u32, poolSizeCount: u32, poolSizes: seq<PoolSize>)

  /** vk::DescriptorSetAllocateInfo as `allocate` fills it. */
  datatype AllocateInfo = AllocateInfo(descriptorSetCount: u32, setLayouts: seq<Layout>)

  datatype DescriptorPool = DescriptorPool(layout: Layout, createInfo: PoolCreateInfo, numberOfSets: nat)

  /**
   * The constructor: `number_of_sets` is the length of `pools`; the pool is
   * created with that many sets at most, one entry per pool size, and sets
   * that may be freed individually.
   */
  function NewDescriptorPool(layout: Layout, pools: seq<PoolSize>): (pool: DescriptorPool)
    ensures pool.layout == layout && pool.numberOfSets == |pools|
    ensures pool.createInfo.poolSizes == pools && pool.createInfo.freeDescriptorSet
    ensures |pools| <= U32Max ==>
      pool.createInfo.maxSets as int == |pools| && pool.createInfo.poolSizeCount as int == |pools|
  {
    DescriptorPool(layout, PoolCreateInfo(true, ToU32(|pools|), ToU32(|pools|), pools), |pools|)
  }

  /** `allocate`: requests `number_of_sets` sets, every one with the pool's layout. */
  function Allocate(pool: DescriptorPool): (info: AllocateInfo)
    ensures |info.setLayouts| == pool.numberOfSets
    ensures forall i | 0 <= i < |info.setLayouts| :: info.setLayouts[i] == pool.layout
    ensures pool.numberOfSets <= U32Max ==> info.descriptorSetCount as int == pool.numberOfSets
  {
    AllocateInfo(ToU32(pool.numberOfSets), seq(pool.numberOfSets, _ => pool.layout))
  }

  /**
   * The number of sets a pool hands out depends only on how many pool sizes
   * it was built from: the descriptor counts in them play no part.
   */
  lemma SetCountIgnoresDescriptorCounts(layout: Layout, pools: seq<PoolSize>, others: seq<PoolSize>)
    requires |pools| == |others|
    ensures Allocate(NewDescriptorPool(layout, pools)) == Allocate(NewDescriptorPool(layout, others))
  {
  }
}
