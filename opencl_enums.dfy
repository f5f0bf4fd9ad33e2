/** The code-to-name decoders of tools/OpenCLEnums.h. A code is one of the named constants of the
    OpenCL 1.2 specification or some other value; each decoder is a total function that names the
    constants it lists and gives a fallback string for everything else. */
module OpenCLEnums {
  import Wrappers

  /** A `cl_device_type` value: one of the six named constants of clGetDeviceIDs (section 4.2 of the
      OpenCL 1.2 specification), or a value equal to none of them (combinations of the named bits,
      for instance). The model does not tie the named constants to their bit patterns. */
  datatype DeviceTypeCode =
    | TypeDefault | TypeCpu | TypeGpu | TypeAccelerator | TypeCustom | TypeAll
    | OtherType(bits: bv64)

  /** The named `cl_int` error constants the decoders mention. */
  datatype ErrorConstant =
    | Success
    | DeviceNotAvailable
    | MemObjectAllocationFailure
    | OutOfResources
    | OutOfHostMemory
    | InvalidValue
    | InvalidPlatform
    | InvalidDevice
    | InvalidContext
    | InvalidCommandQueue
    | InvalidMemObject
    | InvalidSampler
    | InvalidProgram
    | InvalidProgramExecutable
    | InvalidKernelName
    | InvalidKernelDefinition
    | InvalidKernel
    | InvalidArgIndex
    | InvalidArgValue
    | InvalidArgSize
    | InvalidKernelArgs
    | InvalidWorkDimension
    | InvalidWorkGroupSize
    | InvalidWorkItemSize
    | InvalidGlobalOffset
    | InvalidEventWaitList
    | InvalidOperation
    | InvalidProperty
    | InvalidGlSharegroupReferenceKhr

  /** A `cl_int` status: a named constant, or a value equal to none of them. */
  datatype ErrorCode = Named(constant: ErrorConstant) | Other(value: int)

  const Unknown: string := "<unknown>"

  /** The identifier of each named constant, as the OpenCL headers spell it. Every name starts with "CL_". */
  function ConstantName(k: ErrorConstant): (name: string)
    ensures |name| > 3 && name[0] == 'C' && name[1] == 'L' && name[2] == '_'
  {
    match k
    case Success => "CL_SUCCESS"
    case DeviceNotAvailable => "CL_DEVICE_NOT_AVAILABLE"
    case MemObjectAllocationFailure => "CL_MEM_OBJECT_ALLOCATION_FAILURE"
    case OutOfResources => "CL_OUT_OF_RESOURCES"
    case OutOfHostMemory => "CL_OUT_OF_HOST_MEMORY"
    case InvalidValue => "CL_INVALID_VALUE"
    case InvalidPlatform => "CL_INVALID_PLATFORM"
    case InvalidDevice => "CL_INVALID_DEVICE"
    case InvalidContext => "CL_INVALID_CONTEXT"
    case InvalidCommandQueue => "CL_INVALID_COMMAND_QUEUE"
    case InvalidMemObject => "CL_INVALID_MEM_OBJECT"
    case InvalidSampler => "CL_INVALID_SAMPLER"
    case InvalidProgram => "CL_INVALID_PROGRAM"
    case InvalidProgramExecutable => "CL_INVALID_PROGRAM_EXECUTABLE"
    case InvalidKernelName => "CL_INVALID_KERNEL_NAME"
    case InvalidKernelDefinition => "CL_INVALID_KERNEL_DEFINITION"
    case InvalidKernel => "CL_INVALID_KERNEL"
    case InvalidArgIndex => "CL_INVALID_ARG_INDEX"
    case InvalidArgValue => "CL_INVALID_ARG_VALUE"
    case InvalidArgSize => "CL_INVALID_ARG_SIZE"
    case InvalidKernelArgs => "CL_INVALID_KERNEL_ARGS"
    case InvalidWorkDimension => "CL_INVALID_WORK_DIMENSION"
    case InvalidWorkGroupSize => "CL_INVALID_WORK_GROUP_SIZE"
    case InvalidWorkItemSize => "CL_INVALID_WORK_ITEM_SIZE"
    case InvalidGlobalOffset => "CL_INVALID_GLOBAL_OFFSET"
    case InvalidEventWaitList => "CL_INVALID_EVENT_WAIT_LIST"
    case InvalidOperation => "CL_INVALID_OPERATION"
    case InvalidProperty => "CL_INVALID_PROPERTY"
    case InvalidGlSharegroupReferenceKhr => "CL_INVALID_GL_SHAREGROUP_REFERENCE_KHR"
  }

  /** What tells the constants' names apart: their length and their last character. */
  function NameFingerprint(name: string): (int, char)
    requires name != []
  {
    (|name|, name[|name| - 1])
  }

  /** The fingerprint of each constant's name, as a table. */
  function Fingerprint(k: ErrorConstant): (int, char) {
    match k
    case Success => (10, 'S')
    case DeviceNotAvailable => (23, 'E')
    case MemObjectAllocationFailure => (32, 'E')
    case OutOfResources => (19, 'S')
    case OutOfHostMemory => (21, 'Y')
    case InvalidValue => (16, 'E')
    case InvalidPlatform => (19, 'M')
    case InvalidDevice => (17, 'E')
    case InvalidContext => (18, 'T')
    case InvalidCommandQueue => (24, 'E')
    case InvalidMemObject => (21, 'T')
    case InvalidSampler => (18, 'R')
    case InvalidProgram => (18, 'M')
    case InvalidProgramExecutable => (29, 'E')
    case InvalidKernelName => (22, 'E')
    case InvalidKernelDefinition => (28, 'N')
    case InvalidKernel => (17, 'L')
    case InvalidArgIndex => (20, 'X')
    case InvalidArgValue => (20, 'E')
    case InvalidArgSize => (19, 'E')
    case InvalidKernelArgs => (22, 'S')
    case InvalidWorkDimension => (25, 'N')
    case InvalidWorkGroupSize => (26, 'E')
    case InvalidWorkItemSize => (25, 'E')
    case InvalidGlobalOffset => (24, 'T')
    case InvalidEventWaitList => (26, 'T')
    case InvalidOperation => (20, 'N')
    case InvalidProperty => (19, 'Y')
    case InvalidGlSharegroupReferenceKhr => (38, 'R')
  }

  /** The constant whose name has a given fingerprint, if any. */
  function ConstantOfFingerprint(fingerprint: (int, char)): Wrappers.Option<ErrorConstant> {
    match fingerprint
    case (10, 'S') => Wrappers.Some(Success)
    case (23, 'E') => Wrappers.Some(DeviceNotAvailable)
    case (32, 'E') => Wrappers.Some(MemObjectAllocationFailure)
    case (19, 'S') => Wrappers.Some(OutOfResources)
    case (21, 'Y') => Wrappers.Some(OutOfHostMemory)
    case (16, 'E') => Wrappers.Some(InvalidValue)
    case (19, 'M') => Wrappers.Some(InvalidPlatform)
    case (17, 'E') => Wrappers.Some(InvalidDevice)
    case (18, 'T') => Wrappers.Some(InvalidContext)
    case (24, 'E') => Wrappers.Some(InvalidCommandQueue)
    case (21, 'T') => Wrappers.Some(InvalidMemObject)
    case (18, 'R') => Wrappers.Some(InvalidSampler)
    case (18, 'M') => Wrappers.Some(InvalidProgram)
    case (29, 'E') => Wrappers.Some(InvalidProgramExecutable)
    case (22, 'E') => Wrappers.Some(InvalidKernelName)
    case (28, 'N') => Wrappers.Some(InvalidKernelDefinition)
    case (17, 'L') => Wrappers.Some(InvalidKernel)
    case (20, 'X') => Wrappers.Some(InvalidArgIndex)
    case (20, 'E') => Wrappers.Some(InvalidArgValue)
    case (19, 'E') => Wrappers.Some(InvalidArgSize)
    case (22, 'S') => Wrappers.Some(InvalidKernelArgs)
    case (25, 'N') => Wrappers.Some(InvalidWorkDimension)
    case (26, 'E') => Wrappers.Some(InvalidWorkGroupSize)
    case (25, 'E') => Wrappers.Some(InvalidWorkItemSize)
    case (24, 'T') => Wrappers.Some(InvalidGlobalOffset)
    case (26, 'T') => Wrappers.Some(InvalidEventWaitList)
    case (20, 'N') => Wrappers.Some(InvalidOperation)
    case (19, 'Y') => Wrappers.Some(InvalidProperty)
    case (38, 'R') => Wrappers.Some(InvalidGlSharegroupReferenceKhr)
    case _ => Wrappers.None
  }

  /** How a decoder reads a code: the constant's own name if the decoder lists it, else its fallback. */
  function Decoded(listed: set<ErrorConstant>, fallback: string, c: ErrorCode): string {
    if c.Named? && c.constant in listed then ConstantName(c.constant) else fallback
  }

  // The constants each decoder lists (clEnqueueNDRangeKernel: section 5.8, clCreateContext: section 4.4,
  // clCreateProgramWithSource/Binary: section 5.6.1, clCreateKernel: section 5.7.1,
  // clSetKernelArg: section 5.7.2 of the OpenCL 1.2 specification).

  const EnqueueKernelCodes: set<ErrorConstant> :=
    {Success, InvalidProgramExecutable, InvalidCommandQueue, InvalidKernel, InvalidContext, InvalidKernelArgs,
     InvalidWorkDimension, InvalidWorkGroupSize, InvalidWorkItemSize, InvalidGlobalOffset, OutOfResources,
     MemObjectAllocationFailure, InvalidEventWaitList, OutOfHostMemory}

  const ContextCreateCodes: set<ErrorConstant> :=
    {Success, InvalidPlatform, InvalidProperty, InvalidValue, InvalidDevice, InvalidOperation,
     DeviceNotAvailable, OutOfResources, OutOfHostMemory, InvalidGlSharegroupReferenceKhr}

  const CreateProgramCodes: set<ErrorConstant> :=
    {Success, InvalidContext, InvalidValue, OutOfResources, OutOfHostMemory}

  const CreateKernelCodes: set<ErrorConstant> :=
    {Success, InvalidProgram, InvalidProgramExecutable, InvalidKernelName, InvalidKernelDefinition,
     InvalidValue, OutOfResources, OutOfHostMemory}

  const SetKernelArgCodes: set<ErrorConstant> :=
    {Success, InvalidKernel, InvalidArgIndex, InvalidArgValue, InvalidMemObject, InvalidSampler,
     InvalidArgSize, OutOfResources, OutOfHostMemory}

  /** `tools::deviceType`: each of the six named device types by name, anything else "<unknown>". */
  function DeviceType(t: DeviceTypeCode): (r: string)
    ensures t.OtherType? <==> r == Unknown
    ensures !t.OtherType? ==> |r| > 15 && r[0] == 'C' && r[1] == 'L' && r[2] == '_'
  {
    match t
    case TypeDefault => "CL_DEVICE_TYPE_DEFAULT"
    case TypeCpu => "CL_DEVICE_TYPE_CPU"
    case TypeGpu => "CL_DEVICE_TYPE_GPU"
    case TypeAccelerator => "CL_DEVICE_TYPE_ACCELERATOR"
    case TypeCustom => "CL_DEVICE_TYPE_CUSTOM"
    case TypeAll => "CL_DEVICE_TYPE_ALL"
    case OtherType(_) => "<unknown>"
  }

  /** `tools::kernelEnqueError`. */
  function KernelEnqueError(c: ErrorCode): (r: string)
    ensures r == Decoded(EnqueueKernelCodes, Unknown, c)
  {
    match c
    case Named(Success) => "CL_SUCCESS"
    case Named(InvalidProgramExecutable) => "CL_INVALID_PROGRAM_EXECUTABLE"
    case Named(InvalidCommandQueue) => "CL_INVALID_COMMAND_QUEUE"
    case Named(InvalidKernel) => "CL_INVALID_KERNEL"
    case Named(InvalidContext) => "CL_INVALID_CONTEXT"
    case Named(InvalidKernelArgs) => "CL_INVALID_KERNEL_ARGS"
    case Named(InvalidWorkDimension) => "CL_INVALID_WORK_DIMENSION"
    case Named(InvalidWorkGroupSize) => "CL_INVALID_WORK_GROUP_SIZE"
    case Named(InvalidWorkItemSize) => "CL_INVALID_WORK_ITEM_SIZE"
    case Named(InvalidGlobalOffset) => "CL_INVALID_GLOBAL_OFFSET"
    case Named(OutOfResources) => "CL_OUT_OF_RESOURCES"
    case Named(MemObjectAllocationFailure) => "CL_MEM_OBJECT_ALLOCATION_FAILURE"
    case Named(InvalidEventWaitList) => "CL_INVALID_EVENT_WAIT_LIST"
    case Named(OutOfHostMemory) => "CL_OUT_OF_HOST_MEMORY"
    case _ => "<unknown>"
  }

  /** `tools::contextCreateError`. */
  function ContextCreateError(c: ErrorCode): (r: string)
    ensures r == Decoded(ContextCreateCodes, Unknown, c)
  {
    match c
    case Named(Success) => "CL_SUCCESS"
    case Named(InvalidPlatform) => "CL_INVALID_PLATFORM"
    case Named(InvalidProperty) => "CL_INVALID_PROPERTY"
    case Named(InvalidValue) => "CL_INVALID_VALUE"
    case Named(InvalidDevice) => "CL_INVALID_DEVICE"
    case Named(InvalidOperation) => "CL_INVALID_OPERATION"
    case Named(DeviceNotAvailable) => "CL_DEVICE_NOT_AVAILABLE"
    case Named(OutOfResources) => "CL_OUT_OF_RESOURCES"
    case Named(OutOfHostMemory) => "CL_OUT_OF_HOST_MEMORY"
    case Named(InvalidGlSharegroupReferenceKhr) => "CL_INVALID_GL_SHAREGROUP_REFERENCE_KHR"
    case _ => "<unknown>"
  }

  /** `tools::createProgramError`. */
  function CreateProgramError(c: ErrorCode): (r: string)
    ensures r == Decoded(CreateProgramCodes, Unknown, c)
  {
    match c
    case Named(Success) => "CL_SUCCESS"
    case Named(InvalidContext) => "CL_INVALID_CONTEXT"
    case Named(InvalidValue) => "CL_INVALID_VALUE"
    case Named(OutOfResources) => "CL_OUT_OF_RESOURCES"
    case Named(OutOfHostMemory) => "CL_OUT_OF_HOST_MEMORY"
    case _ => "<unknown>"
  }

  /** `tools::createKernelError`. */
  function CreateKernelError(c: ErrorCode): (r: string)
    ensures r == Decoded(CreateKernelCodes, Unknown, c)
  {
    match c
    case Named(Success) => "CL_SUCCESS"
    case Named(InvalidProgram) => "CL_INVALID_PROGRAM"
    case Named(InvalidProgramExecutable) => "CL_INVALID_PROGRAM_EXECUTABLE"
    case Named(InvalidKernelName) => "CL_INVALID_KERNEL_NAME"
    case Named(InvalidKernelDefinition) => "CL_INVALID_KERNEL_DEFINITION"
    case Named(InvalidValue) => "CL_INVALID_VALUE"
    case Named(OutOfResources) => "CL_OUT_OF_RESOURCES"
    case Named(OutOfHostMemory) => "CL_OUT_OF_HOST_MEMORY"
    case _ => "<unknown>"
  }

  /** `tools::setKernelArgError`: the one decoder whose fallback is "unknown", without angle brackets. */
  function SetKernelArgError(c: ErrorCode): (r: string)
    ensures r == Decoded(SetKernelArgCodes, "unknown", c)
  {
    match c
    case Named(Success) => "CL_SUCCESS"
    case Named(InvalidKernel) => "CL_INVALID_KERNEL"
    case Named(InvalidArgIndex) => "CL_INVALID_ARG_INDEX"
    case Named(InvalidArgValue) => "CL_INVALID_ARG_VALUE"
    case Named(InvalidMemObject) => "CL_INVALID_MEM_OBJECT"
    case Named(InvalidSampler) => "CL_INVALID_SAMPLER"
    case Named(InvalidArgSize) => "CL_INVALID_ARG_SIZE"
    case Named(OutOfResources) => "CL_OUT_OF_RESOURCES"
    case Named(OutOfHostMemory) => "CL_OUT_OF_HOST_MEMORY"
    case _ => "unknown"
  }

  /** `tools::enqueKernelError`. */
  function EnqueKernelError(c: ErrorCode): (r: string)
    ensures r == Decoded(EnqueueKernelCodes, Unknown, c)
  {
    match c
    case Named(Success) => "CL_SUCCESS"
    case Named(InvalidProgramExecutable) => "CL_INVALID_PROGRAM_EXECUTABLE"
    case Named(InvalidCommandQueue) => "CL_INVALID_COMMAND_QUEUE"
    case Named(InvalidKernel) => "CL_INVALID_KERNEL"
    case Named(InvalidContext) => "CL_INVALID_CONTEXT"
    case Named(InvalidKernelArgs) => "CL_INVALID_KERNEL_ARGS"
    case Named(InvalidWorkDimension) => "CL_INVALID_WORK_DIMENSION"
    case Named(InvalidWorkGroupSize) => "CL_INVALID_WORK_GROUP_SIZE"
    case Named(InvalidWorkItemSize) => "CL_INVALID_WORK_ITEM_SIZE"
    case Named(InvalidGlobalOffset) => "CL_INVALID_GLOBAL_OFFSET"
    case Named(OutOfResources) => "CL_OUT_OF_RESOURCES"
    case Named(MemObjectAllocationFailure) => "CL_MEM_OBJECT_ALLOCATION_FAILURE"
    case Named(InvalidEventWaitList) => "CL_INVALID_EVENT_WAIT_LIST"
    case Named(OutOfHostMemory) => "CL_OUT_OF_HOST_MEMORY"
    case _ => "<unknown>"
  }

  // ---------------------------------------------------------------------------------------------
  // Properties of the decoders

  /** A listed code gives the constant's name, which never equals the fallback; an unlisted one gives
      the fallback. So a decoder answers its fallback exactly for the codes it does not list. */
  lemma DecodedIsFallbackIff(listed: set<ErrorConstant>, fallback: string, c: ErrorCode)
    requires fallback == Unknown || fallback == "unknown"
    ensures Decoded(listed, fallback, c) == fallback <==> !(c.Named? && c.constant in listed)
  {
    if c.Named? && c.constant in listed {
      var name := ConstantName(c.constant);
      assert name[0] == 'C' != fallback[0];
    }
  }

  /** `kernelEnqueError` and `enqueKernelError` are the same table. */
  lemma KernelEnqueAndEnqueKernelAgree(c: ErrorCode)
    ensures KernelEnqueError(c) == EnqueKernelError(c)
  {
  }

  /** Every decoder maps CL_SUCCESS to "CL_SUCCESS". */
  lemma AllDecodeSuccess()
    ensures KernelEnqueError(Named(Success)) == "CL_SUCCESS"
    ensures ContextCreateError(Named(Success)) == "CL_SUCCESS"
    ensures CreateProgramError(Named(Success)) == "CL_SUCCESS"
    ensures CreateKernelError(Named(Success)) == "CL_SUCCESS"
    ensures SetKernelArgError(Named(Success)) == "CL_SUCCESS"
    ensures EnqueKernelError(Named(Success)) == "CL_SUCCESS"
  {
  }

  /** No decoder ever returns the empty string. */
  lemma NoDecoderIsEmpty(c: ErrorCode, t: DeviceTypeCode)
    ensures DeviceType(t) != ""
    ensures KernelEnqueError(c) != "" && ContextCreateError(c) != "" && CreateProgramError(c) != ""
    ensures CreateKernelError(c) != "" && SetKernelArgError(c) != "" && EnqueKernelError(c) != ""
  {
  }

  /** `createProgramError` recognises only CL_SUCCESS, CL_INVALID_CONTEXT, CL_INVALID_VALUE,
      CL_OUT_OF_RESOURCES and CL_OUT_OF_HOST_MEMORY. */
  lemma CreateProgramErrorRecognises(c: ErrorCode)
    ensures CreateProgramError(c) != Unknown <==>
      c in {Named(Success), Named(InvalidContext), Named(InvalidValue), Named(OutOfResources), Named(OutOfHostMemory)}
  {
    DecodedIsFallbackIff(CreateProgramCodes, Unknown, c);
  }

  /** Each named device type has its own name: two different named types never print alike. */
  lemma DeviceTypeNamesDistinct(t: DeviceTypeCode, u: DeviceTypeCode)
    requires !t.OtherType? && !u.OtherType? && t != u
    ensures DeviceType(t) != DeviceType(u)
  {
  }

  /** Each error constant has its own name, so "the constant's name" identifies the constant. */
  lemma ConstantNamesDistinct(k: ErrorConstant, m: ErrorConstant)
    requires k != m
    ensures ConstantName(k) != ConstantName(m)
  {
    NameRoundTrip(k);
    NameRoundTrip(m);
  }

  /** A constant's name, through its fingerprint, leads back to the constant. */
  lemma NameRoundTrip(k: ErrorConstant)
    ensures ConstantOfFingerprint(NameFingerprint(ConstantName(k))) == Wrappers.Some(k)
  {
    NameHasFingerprint(k);
    FingerprintRoundTrip(k);
  }

  /** The fingerprint table agrees with the names; checked ten constants at a time. */
  lemma NameHasFingerprint(k: ErrorConstant)
    ensures NameFingerprint(ConstantName(k)) == Fingerprint(k)
  {
    match k
    case Success | DeviceNotAvailable | MemObjectAllocationFailure | OutOfResources | OutOfHostMemory | InvalidValue | InvalidPlatform | InvalidDevice | InvalidContext | InvalidCommandQueue => FirstNamesHaveFingerprints(k);
    case InvalidMemObject | InvalidSampler | InvalidProgram | InvalidProgramExecutable | InvalidKernelName | InvalidKernelDefinition | InvalidKernel | InvalidArgIndex | InvalidArgValue | InvalidArgSize => SecondNamesHaveFingerprints(k);
    case InvalidKernelArgs | InvalidWorkDimension | InvalidWorkGroupSize | InvalidWorkItemSize | InvalidGlobalOffset | InvalidEventWaitList | InvalidOperation | InvalidProperty | InvalidGlSharegroupReferenceKhr => ThirdNamesHaveFingerprints(k);
  }

  lemma FirstNamesHaveFingerprints(k: ErrorConstant)
    requires k in {Success, DeviceNotAvailable, MemObjectAllocationFailure, OutOfResources, OutOfHostMemory, InvalidValue, InvalidPlatform, InvalidDevice, InvalidContext, InvalidCommandQueue}
    ensures NameFingerprint(ConstantName(k)) == Fingerprint(k)
  {
  }

  lemma SecondNamesHaveFingerprints(k: ErrorConstant)
    requires k in {InvalidMemObject, InvalidSampler, InvalidProgram, InvalidProgramExecutable, InvalidKernelName, InvalidKernelDefinition, InvalidKernel, InvalidArgIndex, InvalidArgValue, InvalidArgSize}
    ensures NameFingerprint(ConstantName(k)) == Fingerprint(k)
  {
  }

  lemma ThirdNamesHaveFingerprints(k: ErrorConstant)
    requires k in {InvalidKernelArgs, InvalidWorkDimension, InvalidWorkGroupSize, InvalidWorkItemSize, InvalidGlobalOffset, InvalidEventWaitList, InvalidOperation, InvalidProperty, InvalidGlSharegroupReferenceKhr}
    ensures NameFingerprint(ConstantName(k)) == Fingerprint(k)
  {
  }

  lemma FingerprintRoundTrip(k: ErrorConstant)
    ensures ConstantOfFingerprint(Fingerprint(k)) == Wrappers.Some(k)
  {
  }
}
