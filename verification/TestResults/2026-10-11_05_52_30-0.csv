TestResult.DisplayName,TestResult.Outcome,TestResult.Duration,TestResult.ResourceCount,RandomSeed
PortLoop.InvokeAllFirstFault (correctness),Passed,00:00:00.5180314,2247324,7
PortLoop.InvokeAllRecords (correctness),Passed,00:00:00.2500000,776243,7
PortLoop.InvokeAll (well-formedness),Passed,00:00:00.1241031,64342,7
PortLoop.InvokeAllAppend (correctness),Passed,00:00:00.1156133,103344,7
PortLoop.InvokeAllGrows (correctness),Passed,00:00:00.0569176,82370,7
PortLoop.InvokeAllFirstFault (well-formedness),Passed,00:00:00.0548090,62443,7
PortLoop.InvokeAllFaultExits (correctness),Passed,00:00:00.0547882,83894,7
